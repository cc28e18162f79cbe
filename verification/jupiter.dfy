/** The Jupiter adapter: a REST quote whose raw JSON becomes the provider data, and a
    swap that asks for instructions and assembles them in a fixed order. */
module Jupiter {
  import opened Wrappers
  import opened Numeric
  import opened Strings
  import Json
  import opened Solana
  import opened Types
  import opened Errors
  import opened Http
  import opened Foreign
  import opened JupiterWire
  import opened Adapter

  const DEFAULT_JUPITER_API_URL: string := "https://lite-api.jup.ag/swap/v1"

  /** `quoteApi` answers `GET {baseUrl}/quote`, decoded as a raw JSON value;
      `swapApi` answers `POST {baseUrl}/swap-instructions`. */
  datatype JupiterProvider = JupiterProvider(
    baseUrl: string,
    apiKey: Option<string>,
    quoteApi: Endpoint<Json.Value>,
    swapApi: Endpoint<SwapInstructionsResponse>)

  /** `JupiterProvider::new`: the given base URL, else the public default. */
  function New(baseUrl: Option<string>, apiKey: Option<string>,
               quoteApi: Endpoint<Json.Value>, swapApi: Endpoint<SwapInstructionsResponse>): (p: JupiterProvider)
    ensures baseUrl.Some? ==> p.baseUrl == baseUrl.value
    ensures baseUrl.None? ==> p.baseUrl == DEFAULT_JUPITER_API_URL
    ensures p.apiKey == apiKey
  {
    JupiterProvider(baseUrl.UnwrapOr(DEFAULT_JUPITER_API_URL), apiKey, quoteApi, swapApi)
  }

  // ---------------------------------------------------------------------------
  // Quote

  /** The quote parameters; the request's direct-routes hint is not passed on. */
  function QuoteParamsFor(codecs: Codecs, request: QuoteRequest, defaultSlippageBps: U16): (params: QuoteParams)
    ensures params.inputMint == codecs.showPubkey(request.inputMint)
    ensures params.outputMint == codecs.showPubkey(request.outputMint)
    ensures params.amount == request.amount
    ensures request.slippageBps.Some? ==> params.slippageBps == request.slippageBps.value
    ensures request.slippageBps.None? ==> params.slippageBps == defaultSlippageBps
    ensures params.onlyDirectRoutes.None?
  {
    QuoteParams(
      codecs.showPubkey(request.inputMint),
      codecs.showPubkey(request.outputMint),
      request.amount,
      ResolveSlippage(request, defaultSlippageBps),
      None)
  }

  /** The URL-encoded form of the parameters (camelCase names; an absent
      `onlyDirectRoutes` is skipped). */
  function EncodeQuoteParams(params: QuoteParams): (q: Query)
    ensures |q| == 4 + (if params.onlyDirectRoutes.Some? then 1 else 0)
    ensures q[0] == ("inputMint", params.inputMint)
    ensures q[1] == ("outputMint", params.outputMint)
    ensures q[2].0 == "amount" && ParseU64(q[2].1) == Success(params.amount)
    ensures q[3].0 == "slippageBps" && ParseU64(q[3].1) == Success(params.slippageBps)
    // The numbers go out as their canonical decimal text, as `u64` and `u16` serialize.
    ensures q[2] == ("amount", DecimalString(params.amount))
    ensures q[3] == ("slippageBps", DecimalString(params.slippageBps))
    ensures params.onlyDirectRoutes.Some? ==>
              q[4] == ("onlyDirectRoutes", if params.onlyDirectRoutes.value then "true" else "false")
    ensures "onlyDirectRoutes" in Keys(q) <==> params.onlyDirectRoutes.Some?
  {
    DecimalRoundTrip(params.amount);
    DecimalRoundTrip(params.slippageBps);
    [ ("inputMint", params.inputMint),
      ("outputMint", params.outputMint),
      ("amount", DecimalString(params.amount)),
      ("slippageBps", DecimalString(params.slippageBps)) ]
    + match params.onlyDirectRoutes
      case Some(b) => [("onlyDirectRoutes", if b then "true" else "false")]
      case None => []
  }

  /** Parameters without a hint read back from their encoding as they were. */
  lemma EncodedParamsReadBack(params: QuoteParams)
    requires params.onlyDirectRoutes.None?
    ensures var q := EncodeQuoteParams(params);
            && Lookup(q, "inputMint") == Some(params.inputMint)
            && Lookup(q, "outputMint") == Some(params.outputMint)
            && Lookup(q, "amount").Some? && ParseU64(Lookup(q, "amount").value) == Success(params.amount)
            && Lookup(q, "slippageBps").Some?
            && ParseU64(Lookup(q, "slippageBps").value) == Success(params.slippageBps)
            && Lookup(q, "onlyDirectRoutes") == None
  {
    var q := EncodeQuoteParams(params);
    var keys := ["inputMint", "outputMint", "amount", "slippageBps"];
    LookupLeading(q, keys);
    assert Lookup(q, keys[2]) == Some(q[2].1) && Lookup(q, keys[3]) == Some(q[3].1);
    LookupNotAmong(q, keys, "onlyDirectRoutes");
  }

  /** What the quote endpoint reads from the query: the shown mints, the amount and the
      resolved slippage as numerals that parse back exactly, and no direct-routes hint. */
  lemma QuoteQueryReadsBack(codecs: Codecs, request: QuoteRequest, defaultSlippageBps: U16)
    ensures var q := EncodeQuoteParams(QuoteParamsFor(codecs, request, defaultSlippageBps));
            && Lookup(q, "inputMint") == Some(codecs.showPubkey(request.inputMint))
            && Lookup(q, "outputMint") == Some(codecs.showPubkey(request.outputMint))
            && Lookup(q, "amount").Some? && ParseU64(Lookup(q, "amount").value) == Success(request.amount)
            && Lookup(q, "slippageBps").Some?
            && ParseU64(Lookup(q, "slippageBps").value) == Success(ResolveSlippage(request, defaultSlippageBps))
            && Lookup(q, "onlyDirectRoutes") == None
  {
    EncodedParamsReadBack(QuoteParamsFor(codecs, request, defaultSlippageBps));
  }

  function QuoteHttpRequest(p: JupiterProvider, codecs: Codecs, request: QuoteRequest, defaultSlippageBps: U16): Request {
    Get(p.baseUrl + "/quote",
        EncodeQuoteParams(QuoteParamsFor(codecs, request, defaultSlippageBps)),
        ApiKeyHeaders(p.apiKey))
  }

  /** What the quote endpoint answers to this request. */
  function QuoteReply(p: JupiterProvider, codecs: Codecs, request: QuoteRequest, defaultSlippageBps: U16)
    : Result<Reply<Json.Value>, string>
  {
    p.quoteApi(QuoteHttpRequest(p, codecs, request, defaultSlippageBps))
  }

  /** A non-2xx quote reply: a body that says no route exists is `NoRouteFound`,
      anything else an `Api` error carrying status and body. */
  function ClassifyQuoteFailure(status: StatusCode, body: string): (e: SwapError)
    ensures e == NoRouteFound <==> Contains(body, "No route found") || Contains(body, "could not find any route")
    ensures e != NoRouteFound ==> e == HttpFailure(Provider.Jupiter, status, body)
  {
    if Contains(body, "No route found") || Contains(body, "could not find any route") then NoRouteFound
    else HttpFailure(Provider.Jupiter, status, body)
  }

  /** A 2xx quote body: decoded as a quote, its amounts parsed, the raw JSON kept. */
  function AdaptQuote(codecs: Codecs, request: QuoteRequest, raw: Json.Value): Result<QuoteResponse, SwapError> {
    var api :- codecs.jupiterQuoteFromValue(raw).MapError((e: string) => Serialization(e));
    var inAmount :- ParseAmount(api.inAmount);
    var outAmount :- ParseAmount(api.outAmount);
    Success(QuoteResponse(
      Provider.Jupiter, request.inputMint, request.outputMint, inAmount, outAmount,
      PriceImpact(codecs, api.priceImpactPct), api.slippageBps, raw))
  }

  function Quote(p: JupiterProvider, codecs: Codecs, request: QuoteRequest, defaultSlippageBps: U16)
    : (r: Result<QuoteResponse, SwapError>)
    ensures r.Success? ==>
              && r.value.provider == Provider.Jupiter
              && r.value.inputMint == request.inputMint
              && r.value.outputMint == request.outputMint
    // A quote comes from a 2xx reply whose raw JSON is kept as the provider data and whose
    // decimal amounts and slippage are taken over exactly.
    ensures r.Success? ==>
              var sent := QuoteReply(p, codecs, request, defaultSlippageBps);
              && sent.Success? && sent.value.status.IsSuccess()
              && sent.value.json == Success(r.value.providerData)
              && var api := codecs.jupiterQuoteFromValue(r.value.providerData);
                 && api.Success?
                 && ParseU64(api.value.inAmount) == Success(r.value.inputAmount)
                 && ParseU64(api.value.outAmount) == Success(r.value.outputAmount)
                 && r.value.slippageBps == api.value.slippageBps
                 && r.value.priceImpactBps == PriceImpact(codecs, api.value.priceImpactPct)
    // A 2xx reply that decodes to a quote with two `u64` numerals always yields a quote.
    ensures var sent := QuoteReply(p, codecs, request, defaultSlippageBps);
            (&& sent.Success? && sent.value.status.IsSuccess() && sent.value.json.Success?
             && var api := codecs.jupiterQuoteFromValue(sent.value.json.value);
                api.Success? && IsU64Literal(api.value.inAmount) && IsU64Literal(api.value.outAmount))
            ==> r.Success?
    // Failures: transport, non-2xx (classified), and unparsable amounts.
    ensures var sent := QuoteReply(p, codecs, request, defaultSlippageBps);
            && (sent.Failure? ==> r == Failure(Network(sent.error)))
            && (sent.Success? && !sent.value.status.IsSuccess() ==>
                  r == Failure(ClassifyQuoteFailure(sent.value.status, sent.value.text)))
    // A 2xx body that is not JSON fails inside reqwest (`Network`); JSON that is not a
    // quote fails in serde (`Serialization`).
    ensures var sent := QuoteReply(p, codecs, request, defaultSlippageBps);
            sent.Success? && sent.value.status.IsSuccess() ==>
              && (sent.value.json.Failure? ==> r == Failure(Network(sent.value.json.error)))
              && (sent.value.json.Success? && codecs.jupiterQuoteFromValue(sent.value.json.value).Failure? ==>
                    r == Failure(Serialization(codecs.jupiterQuoteFromValue(sent.value.json.value).error)))
    ensures var sent := QuoteReply(p, codecs, request, defaultSlippageBps);
            (&& sent.Success? && sent.value.status.IsSuccess() && sent.value.json.Success?
             && var api := codecs.jupiterQuoteFromValue(sent.value.json.value);
                api.Success? && !(IsU64Literal(api.value.inAmount) && IsU64Literal(api.value.outAmount)))
            ==> r.Failure? && r.error.Serialization?
    // The kinds of error a quote can report.
    ensures r.Failure? ==> r.error.Network? || r.error.NoRouteFound? || r.error.Api? || r.error.Serialization?
  {
    var reply :- QuoteReply(p, codecs, request, defaultSlippageBps).MapError((e: string) => Network(e));
    if !reply.status.IsSuccess() then
      Failure(ClassifyQuoteFailure(reply.status, reply.text))
    else
      var raw :- reply.json.MapError((e: string) => Network(e));
      AdaptQuote(codecs, request, raw)
  }

  // ---------------------------------------------------------------------------
  // Swap

  /** The instructions in execution order: token ledger (if any), compute budget, setup,
      swap, cleanup (if any), then the others. */
  function OrderedInstructions(api: SwapInstructionsResponse): (ixs: seq<InstructionWire>)
    ensures
      var ledger := OptionLength(api.tokenLedgerInstruction);
      var budget := |api.computeBudgetInstructions|;
      var setup := |api.setupInstructions|;
      var cleanup := OptionLength(api.cleanupInstruction);
      var swapAt := ledger + budget + setup;
      && |ixs| == swapAt + 1 + cleanup + |api.otherInstructions|
      && (api.tokenLedgerInstruction.Some? ==> ixs[0] == api.tokenLedgerInstruction.value)
      && (forall i :: 0 <= i < budget ==> ixs[ledger + i] == api.computeBudgetInstructions[i])
      && (forall i :: 0 <= i < setup ==> ixs[ledger + budget + i] == api.setupInstructions[i])
      && ixs[swapAt] == api.swapInstruction
      && (api.cleanupInstruction.Some? ==> ixs[swapAt + 1] == api.cleanupInstruction.value)
      && (forall i :: 0 <= i < |api.otherInstructions| ==> ixs[swapAt + 1 + cleanup + i] == api.otherInstructions[i])
  {
    OptionToSeq(api.tokenLedgerInstruction)
    + api.computeBudgetInstructions
    + api.setupInstructions
    + [api.swapInstruction]
    + OptionToSeq(api.cleanupInstruction)
    + api.otherInstructions
  }

  function ConvertAccount(codecs: Codecs, a: AccountMetaWire): Result<AccountMeta, SwapError> {
    var pubkey :- codecs.parsePubkey(a.pubkey).MapError((e: string) => Serialization(e));
    // `AccountMeta::new` marks the account writable, `new_readonly` does not.
    Success(if a.isWritable then AccountMeta(pubkey, a.isSigner, true) else AccountMeta(pubkey, a.isSigner, false))
  }

  /** `convert_instruction`: the program id and every account key parse as base58 and the
      data as base64, or the whole conversion fails with `Serialization`. */
  function ConvertInstruction(codecs: Codecs, ix: InstructionWire): (r: Result<Instruction, SwapError>)
    ensures r.Success? <==>
              && codecs.parsePubkey(ix.programId).Success?
              && (forall i :: 0 <= i < |ix.accounts| ==> codecs.parsePubkey(ix.accounts[i].pubkey).Success?)
              && codecs.base64Decode(ix.data).Success?
    ensures r.Success? ==>
              && codecs.parsePubkey(ix.programId) == Success(r.value.programId)
              && |r.value.accounts| == |ix.accounts|
              && (forall i :: 0 <= i < |ix.accounts| ==>
                    r.value.accounts[i] == AccountMeta(codecs.parsePubkey(ix.accounts[i].pubkey).value,
                                                       ix.accounts[i].isSigner, ix.accounts[i].isWritable))
              && codecs.base64Decode(ix.data) == Success(r.value.data)
    ensures r.Failure? ==> r.error.Serialization?
  {
    var programId :- codecs.parsePubkey(ix.programId).MapError((e: string) => Serialization(e));
    var accounts :- TryMap(ix.accounts, (a: AccountMetaWire) => ConvertAccount(codecs, a));
    var data :- codecs.base64Decode(ix.data).MapError((e: string) => Serialization(e));
    Success(Instruction(programId, accounts, data))
  }

  /** `filter_map(|s| Pubkey::from_str(s).ok())`: addresses that do not parse are
      dropped, the others kept in order. */
  function ParseableAddresses(parse: string -> Result<Pubkey, string>, addresses: seq<string>): (keys: seq<Pubkey>)
    ensures |keys| <= |addresses|
    ensures forall k :: k in keys ==> exists i :: 0 <= i < |addresses| && parse(addresses[i]) == Success(k)
    ensures (forall i :: 0 <= i < |addresses| ==> parse(addresses[i]).Failure?) ==> keys == []
    ensures (forall i :: 0 <= i < |addresses| ==> parse(addresses[i]).Success?) ==>
              |keys| == |addresses| && forall i :: 0 <= i < |addresses| ==> parse(addresses[i]) == Success(keys[i])
    decreases |addresses|
  {
    if |addresses| == 0 then []
    else
      var rest := ParseableAddresses(parse, addresses[1..]);
      match parse(addresses[0])
      case Success(k) => [k] + rest
      case Failure(_) => rest
  }

  /** Filtering a concatenation filters each part in turn: the survivors keep their order. */
  lemma {:induction false} ParseableAddressesAppend(parse: string -> Result<Pubkey, string>, a: seq<string>, b: seq<string>)
    ensures ParseableAddresses(parse, a + b) == ParseableAddresses(parse, a) + ParseableAddresses(parse, b)
    decreases |a|
  {
    if |a| == 0 {
      assert a + b == b;
    } else {
      assert (a + b)[0] == a[0];
      assert (a + b)[1..] == a[1..] + b;
      ParseableAddressesAppend(parse, a[1..], b);
    }
  }

  /** One lookup table: its account is fetched and decoded; either failure is `Solana`. */
  function FetchLookupTable(codecs: Codecs, rpc: RpcClient, key: Pubkey): (r: Result<AddressLookupTableAccount, SwapError>)
    ensures var account := rpc.getAccountData(key);
            && (r.Success? <==> account.Success? && codecs.decodeLookupTable(account.value).Success?)
            && (r.Success? ==> codecs.decodeLookupTable(account.value) == Success(r.value.addresses))
            && (account.Failure? ==> r == Failure(SwapError.Solana(account.error)))
            && (account.Success? && codecs.decodeLookupTable(account.value).Failure? ==>
                  r == Failure(SwapError.Solana(codecs.decodeLookupTable(account.value).error)))
    ensures r.Success? ==> r.value.key == key
    ensures r.Failure? ==> r.error.Solana?
  {
    var data :- rpc.getAccountData(key).MapError((e: string) => SwapError.Solana(e));
    var addresses :- codecs.decodeLookupTable(data).MapError((e: string) => SwapError.Solana(e));
    Success(AddressLookupTableAccount(key, addresses))
  }

  /** `fetch_address_lookup_tables`: one table per key, in order, or the first failure. */
  function FetchAddressLookupTables(codecs: Codecs, rpc: RpcClient, keys: seq<Pubkey>)
    : (r: Result<seq<AddressLookupTableAccount>, SwapError>)
    ensures r.Success? <==> forall i :: 0 <= i < |keys| ==> FetchLookupTable(codecs, rpc, keys[i]).Success?
    ensures r.Success? ==> |r.value| == |keys| && forall i :: 0 <= i < |keys| ==> r.value[i].key == keys[i]
    ensures r.Success? ==> forall i :: 0 <= i < |keys| ==> FetchLookupTable(codecs, rpc, keys[i]) == Success(r.value[i])
    ensures r.Failure? ==>
              exists i :: 0 <= i < |keys| && FetchLookupTable(codecs, rpc, keys[i]) == Failure(r.error)
                          && forall j :: 0 <= j < i ==> FetchLookupTable(codecs, rpc, keys[j]).Success?
    ensures r.Failure? ==> r.error.Solana?
  {
    TryMap(keys, (k: Pubkey) => FetchLookupTable(codecs, rpc, k))
  }

  /** A compute-unit limit of 0 means "no hint". */
  function ComputeUnits(limit: U32): (cu: Option<U32>)
    ensures cu.Some? <==> limit > 0
    ensures cu.Some? ==> cu.value == limit
  {
    if limit > 0 then Some(limit) else None
  }

  /** The swap request body: the user's key, the stored quote JSON, dynamic compute units. */
  function SwapRequestBody(codecs: Codecs, quoteJson: Json.Value, user: Pubkey): (body: Json.Value)
    ensures Json.Get(body, "quoteResponse") == quoteJson
    ensures Json.Get(body, "userPublicKey") == Json.Str(codecs.showPubkey(user))
    ensures Json.AsBool(Json.Get(body, "dynamicComputeUnitLimit")) == Some(true)
  {
    Json.Object(map[
      "userPublicKey" := Json.Str(codecs.showPubkey(user)),
      "quoteResponse" := quoteJson,
      "dynamicComputeUnitLimit" := Json.Bool(true)])
  }

  function SwapReply(p: JupiterProvider, codecs: Codecs, quote: QuoteResponse, user: Pubkey)
    : Result<Reply<SwapInstructionsResponse>, string>
  {
    p.swapApi(PostJson(p.baseUrl + "/swap-instructions", SwapRequestBody(codecs, quote.providerData, user),
                       ApiKeyHeaders(p.apiKey)))
  }

  /** A decoded swap-instructions reply turned into a swap: every instruction converted
      in the fixed order, the parseable lookup tables fetched, the compute-unit rule
      applied. One bad instruction aborts with `Serialization`; otherwise the swap stands
      or falls with the table fetch. */
  function AssembleSwap(codecs: Codecs, rpc: RpcClient, api: SwapInstructionsResponse)
    : (r: Result<SwapResult, SwapError>)
    ensures var ordered := OrderedInstructions(api);
            var tables := FetchAddressLookupTables(codecs, rpc, ParseableAddresses(codecs.parsePubkey, api.addressLookupTableAddresses));
            && (r.Success? ==>
                  && r.value.Instructions?
                  && |r.value.instructions| == |ordered|
                  && (forall i :: 0 <= i < |ordered| ==>
                        ConvertInstruction(codecs, ordered[i]) == Success(r.value.instructions[i]))
                  && tables == Success(r.value.addressLookupTables)
                  && r.value.computeUnits == ComputeUnits(api.computeUnitLimit))
            && ((exists i :: 0 <= i < |ordered| && ConvertInstruction(codecs, ordered[i]).Failure?) ==>
                  r.Failure? && r.error.Serialization?)
            && ((forall i :: 0 <= i < |ordered| ==> ConvertInstruction(codecs, ordered[i]).Success?) ==>
                  && (tables.Success? ==> r.Success?)
                  && (tables.Failure? ==> r == Failure(tables.error)))
    ensures r.Failure? ==> r.error.Serialization? || r.error.Solana?
  {
    var instructions :- TryMap(OrderedInstructions(api), (ix: InstructionWire) => ConvertInstruction(codecs, ix));
    var keys := ParseableAddresses(codecs.parsePubkey, api.addressLookupTableAddresses);
    var tables :- FetchAddressLookupTables(codecs, rpc, keys);
    Success(Instructions(instructions, tables, ComputeUnits(api.computeUnitLimit)))
  }

  function Swap(p: JupiterProvider, codecs: Codecs, quote: QuoteResponse, user: Pubkey, rpc: RpcClient)
    : (r: Result<SwapResult, SwapError>)
    ensures r.Success? ==> r.value.Instructions?
    // The instructions are the converted reply instructions, one for one and in order.
    ensures r.Success? ==>
              var sent := SwapReply(p, codecs, quote, user);
              && sent.Success? && sent.value.status.IsSuccess() && sent.value.json.Success?
              && var api := sent.value.json.value;
                 var ordered := OrderedInstructions(api);
                 && |r.value.instructions| == |ordered|
                 && (forall i :: 0 <= i < |ordered| ==>
                       ConvertInstruction(codecs, ordered[i]) == Success(r.value.instructions[i]))
                 && FetchAddressLookupTables(codecs, rpc, ParseableAddresses(codecs.parsePubkey, api.addressLookupTableAddresses))
                      == Success(r.value.addressLookupTables)
                 && r.value.computeUnits == ComputeUnits(api.computeUnitLimit)
    // One bad instruction aborts the whole swap.
    ensures var sent := SwapReply(p, codecs, quote, user);
            (&& sent.Success? && sent.value.status.IsSuccess() && sent.value.json.Success?
             && var ordered := OrderedInstructions(sent.value.json.value);
                exists i :: 0 <= i < |ordered| && ConvertInstruction(codecs, ordered[i]).Failure?)
            ==> r.Failure? && r.error.Serialization?
    // When every instruction converts, the swap stands or falls with the table fetch.
    ensures var sent := SwapReply(p, codecs, quote, user);
            (&& sent.Success? && sent.value.status.IsSuccess() && sent.value.json.Success?
             && var ordered := OrderedInstructions(sent.value.json.value);
                forall i :: 0 <= i < |ordered| ==> ConvertInstruction(codecs, ordered[i]).Success?)
            ==> var api := sent.value.json.value;
                var tables := FetchAddressLookupTables(codecs, rpc, ParseableAddresses(codecs.parsePubkey, api.addressLookupTableAddresses));
                && (tables.Success? ==> r.Success?)
                && (tables.Failure? ==> r == Failure(tables.error))
    // A non-2xx reply is an `Api` error, transport failure `Network`, an undecodable body
    // `Serialization`; the swap step never reports `NoRouteFound`.
    ensures var sent := SwapReply(p, codecs, quote, user);
            && (sent.Failure? ==> r == Failure(Network(sent.error)))
            && (sent.Success? && !sent.value.status.IsSuccess() ==>
                  r == Failure(HttpFailure(Provider.Jupiter, sent.value.status, sent.value.text)))
            && (sent.Success? && sent.value.status.IsSuccess() && sent.value.json.Failure? ==>
                  r == Failure(Serialization(sent.value.json.error)))
    ensures r != Failure(NoRouteFound)
    // The kinds of error a swap can report.
    ensures r.Failure? ==> r.error.Network? || r.error.Api? || r.error.Serialization? || r.error.Solana?
  {
    var reply :- SwapReply(p, codecs, quote, user).MapError((e: string) => Network(e));
    if !reply.status.IsSuccess() then
      Failure(HttpFailure(Provider.Jupiter, reply.status, reply.text))
    else
      var api :- reply.json.MapError((e: string) => Serialization(e));
      AssembleSwap(codecs, rpc, api)
  }

  // ---------------------------------------------------------------------------
  // The quote/swap hand-off

  /** The swap posts back exactly the JSON the quote endpoint returned, which the quote
      had already decoded as a quote. */
  lemma SwapPostsQuotedJson(p: JupiterProvider, codecs: Codecs, request: QuoteRequest,
                            defaultSlippageBps: U16, user: Pubkey)
    requires Quote(p, codecs, request, defaultSlippageBps).Success?
    ensures var quote := Quote(p, codecs, request, defaultSlippageBps).value;
            var sent := QuoteReply(p, codecs, request, defaultSlippageBps);
            var posted := Json.Get(SwapRequestBody(codecs, quote.providerData, user), "quoteResponse");
            && sent.Success? && sent.value.json.Success?
            && posted == sent.value.json.value
            && codecs.jupiterQuoteFromValue(posted).Success?
  {
  }

  /** Every instruction of a swap-instructions reply converts. */
  predicate Convertible(codecs: Codecs, api: SwapInstructionsResponse) {
    var ordered := OrderedInstructions(api);
    forall i :: 0 <= i < |ordered| ==> ConvertInstruction(codecs, ordered[i]).Success?
  }

  /** Every lookup table a swap-instructions reply names, and that parses, fetches. */
  predicate TablesFetch(codecs: Codecs, rpc: RpcClient, api: SwapInstructionsResponse) {
    var keys := ParseableAddresses(codecs.parsePubkey, api.addressLookupTableAddresses);
    forall i :: 0 <= i < |keys| ==> FetchLookupTable(codecs, rpc, keys[i]).Success?
  }

  /** A 2xx swap-instructions reply whose instructions all convert and whose tables each
      fetch always gives a swap. */
  lemma SwapOfConvertibleReply(p: JupiterProvider, codecs: Codecs, quote: QuoteResponse, user: Pubkey, rpc: RpcClient)
    requires var sent := SwapReply(p, codecs, quote, user);
             && sent.Success? && sent.value.status.IsSuccess() && sent.value.json.Success?
             && Convertible(codecs, sent.value.json.value)
             && TablesFetch(codecs, rpc, sent.value.json.value)
    ensures Swap(p, codecs, quote, user, rpc).Success?
  {
    var api := SwapReply(p, codecs, quote, user).value.json.value;
    assert FetchAddressLookupTables(codecs, rpc, ParseableAddresses(codecs.parsePubkey, api.addressLookupTableAddresses)).Success?;
  }

  /** End to end: a 2xx quote reply that decodes with numeric amounts gives a quote, and
      when the swap-instructions reply to the posted quote JSON converts and each of its
      tables fetches, that quote swaps. */
  lemma QuoteThenSwap(p: JupiterProvider, codecs: Codecs, request: QuoteRequest, defaultSlippageBps: U16,
                      user: Pubkey, rpc: RpcClient)
    requires var sent := QuoteReply(p, codecs, request, defaultSlippageBps);
             && sent.Success? && sent.value.status.IsSuccess() && sent.value.json.Success?
             && var api := codecs.jupiterQuoteFromValue(sent.value.json.value);
                api.Success? && IsU64Literal(api.value.inAmount) && IsU64Literal(api.value.outAmount)
    requires var quoted := QuoteReply(p, codecs, request, defaultSlippageBps);
             && quoted.Success? && quoted.value.json.Success?
             && var sent := p.swapApi(PostJson(p.baseUrl + "/swap-instructions",
                                               SwapRequestBody(codecs, quoted.value.json.value, user),
                                               ApiKeyHeaders(p.apiKey)));
                && sent.Success? && sent.value.status.IsSuccess() && sent.value.json.Success?
                && Convertible(codecs, sent.value.json.value)
                && TablesFetch(codecs, rpc, sent.value.json.value)
    ensures Quote(p, codecs, request, defaultSlippageBps).Success?
    ensures Swap(p, codecs, Quote(p, codecs, request, defaultSlippageBps).value, user, rpc).Success?
  {
    var quote := Quote(p, codecs, request, defaultSlippageBps).value;
    assert quote.providerData == QuoteReply(p, codecs, request, defaultSlippageBps).value.json.value;
    SwapOfConvertibleReply(p, codecs, quote, user, rpc);
  }
}

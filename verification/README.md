# solana-swap-routers — a Dafny model of the provider layer

This project models the deterministic core of `solana-swap-routers`. That core sits
between three DEX routing backends (Jupiter, Titan, Dflow) and one canonical
quote/swap model. It has four parts:

- **Canonical model** (`types.dfy`, `error.dfy`): `Provider`, `QuoteRequest`,
  `QuoteResponse`, `SwapResult`, `SwapConfig` and the `SwapError` kinds.
- **Transaction assembly** (`transaction.dfy`, module `Assembly`):
  `into_unsigned_transaction`. The prebuilt path stamps the blockhash and resets
  the signatures to zero placeholders. The instruction path compiles a V0 message.
- **Adapters** (`jupiter.dfy`, `dflow.dfy`, `titan.dfy`, plus the shared rules in
  `adapter.dfy`). Each adapter maps a request and its backend's answer to a quote or
  swap result, or to one canonical error. This covers error-body classification,
  slippage defaulting, exact decimal amount parsing, the `provider_data` round trip,
  the Dflow order query, the Jupiter instruction order and account flags, the
  compute-unit rule and lookup-table address filtering.
- **Aggregator** (`aggregator.dfy`): construction, `quote`, `quote_all` and `swap`,
  routed over one optional slot per provider.

Everything the source does over the network or in foreign code is an input:

- An HTTP backend is an `Http.Endpoint<T>`. It is a function from the request the
  adapter sends to the status, body text and decoded body it gets back, or to a
  transport error.
- The Titan WebSocket client is a `Titan.TitanSession` of three functions: price,
  first stream message, and instruction preparation.
- The chain RPC client is a `Foreign.RpcClient`.
- Base58, base64, bincode, serde's `from_value`, the float price-impact conversion and
  lookup-table decoding are the fields of `Foreign.Codecs`.
- `v0::Message::try_compile` is a `Solana.Compiler`.

Each of these is an arbitrary partial function (a function into `Result`/`Option`).
The contracts therefore hold for every behaviour of the backends and libraries.
`str::parse::<u64>` and `u64::to_string` are modelled exactly (module `Strings`), and
so is `serde_json::Value` indexing (module `Json`).

Some behaviours of the code are easy to misread:

- `select_best_route` is `max_by_key`, which keeps the later of equal keys. So it
  returns the **last** of several routes with equal `out_amount`. Its input order comes
  from a `HashMap`, so which of the tied routes is last is unspecified.
  `TitanRoutes.SelectTieTakesLast` states this.
- No adapter checks that `output_amount > 0`. No contract claims it.
- `src/dflow/mod.rs:86-91` and `src/jupiter/mod.rs:47-52` build `QuoteRequest` and
  `JupiterQuoteParams` without the `only_direct_routes` field that
  `src/types.rs:36` and `src/jupiter/types.rs:11` declare. The model sets that field
  to `None` on both paths. So neither Jupiter's quote nor Dflow's replayed order
  passes the hint on.
- Jupiter's quote maps a failure of `response.json()` to `Network` (it is a reqwest
  error), not to `Serialization`.

## Model

| member | source | states |
|---|---|---|
| `Wrappers.TryMap` | src/jupiter/mod.rs:182-194 | Collecting `Result`s succeeds exactly when every element converts, and then yields one output per input, in order. Otherwise it yields the error of the first failing element, and every element before it converted. |
| `Numeric.AsU16` | src/dflow/mod.rs:82-84 | The `as u16` cast keeps values below 2^16 unchanged. Any other value is congruent to its result modulo 2^16. |
| `Numeric.AsU32` | src/titan/mod.rs:147 | The `as u32` cast keeps values below 2^32 unchanged. Any other value is congruent to its result modulo 2^32. |
| `Strings.Contains` | src/dflow/mod.rs:158 | `body.contains(p)` is true exactly when `p` occurs at some position of `body`. |
| `Strings.DecimalString` | src/dflow/mod.rs:128 | `to_string` of an amount is a non-empty digit string whose decimal value is the amount. It has no leading zero: "0" is the only rendering that starts with `0`, and it is the rendering of 0 alone. |
| `Strings.ScanDigits` | src/dflow/mod.rs:42-49 | The digit loop of `parse::<u64>` succeeds exactly when all characters are digits and the value fits in 64 bits, and then returns that value. It never reports `Empty`. |
| `Strings.ParseU64` | src/dflow/mod.rs:42-49 | `parse::<u64>` accepts exactly an optional `+` followed by decimal digits denoting a value below 2^64, and returns that exact value. It reports `Empty` exactly for the empty string. |
| `Strings.DecimalRoundTrip` | src/dflow/mod.rs:128 | Parsing back a rendered `u64` gives the same number. |
| `Strings.DecimalStringInjective` | src/dflow/mod.rs:128 | Distinct amounts render as distinct strings. |
| `Json.Get` | src/dflow/mod.rs:79 | Indexing a JSON value by key yields the member of an object, or `null` when the key is missing or the value is not an object. |
| `Json.AsU64` | src/dflow/mod.rs:79 | `as_u64` yields a value exactly for non-negative integers below 2^64, and that value is the integer. |
| `Json.AsBool` | src/titan/mod.rs:108 | `as_bool` yields a value exactly for booleans, and that value is the boolean. |
| `Json.OptionalBool` | src/titan/mod.rs:78 | An `Option<bool>` written into a JSON document reads back as the same `Option<bool>`. |
| `Http.StatusCode.Display` | src/jupiter/mod.rs:71 | A status prints as its decimal code, a space, then its reason phrase. The code part parses back to the status code. |
| `Assembly.IntoUnsignedTransaction` | src/types.rs:64-103 | The prebuilt path never fails. It sets the recent blockhash to the one supplied, for Legacy and V0 alike, and keeps version, header, account keys, instructions and lookups. The instruction path yields the compiled V0 message, or `Solana` with the compiler's error when compilation fails. Either way there are exactly `num_required_signatures` signatures, all zero. |
| `Assembly.PrebuiltIdempotent` | src/types.rs:71-80 | Re-assembling an assembled prebuilt transaction with the same blockhash returns it unchanged. |
| `Assembly.PrebuiltDependsOnlyOnMessage` | src/types.rs:71-80 | On the prebuilt path the output depends only on the message and the blockhash. The incoming signatures, `last_valid_block_height`, payer and compiler have no influence. |
| `Assembly.InstructionsIgnoreComputeUnits` | src/types.rs:82-86 | `compute_units` has no influence on the assembled transaction. |
| `Http.ApiKeyHeaders` | src/jupiter/mod.rs:56-58 | The `x-api-key` header is sent exactly when an API key is configured, and it carries that key. |
| `Adapter.ResolveSlippage` | src/jupiter/mod.rs:51 | The slippage used is the request's when it has one, and the default otherwise. |
| `Adapter.ParseAmount` | src/jupiter/mod.rs:79-86 | An amount string is accepted exactly when it is a `u64` numeral, with its exact value, so amounts never wrap. Any rejection is `Serialization`. |
| `Adapter.ParseAmountOfRendered` | src/dflow/mod.rs:128 | An amount rendered by an adapter is accepted back unchanged. |
| `Adapter.PriceImpact` | src/jupiter/mod.rs:88-90 | Price impact is absent when the backend gives no percentage. Otherwise it is the converted percentage, and it is present whenever the conversion succeeds. |
| `Adapter.HttpFailure` | src/jupiter/mod.rs:69-72 | A non-2xx reply that is not a missing route becomes `Api` for the provider, whose message is `"HTTP {status}: {body}"`: `HTTP `, then the status's display text (the decimal code, which parses back to the code, a space and the reason phrase), then `: `, then the body, with nothing else. |
| `Jupiter.QuoteParamsFor` | src/jupiter/mod.rs:47-52 | The quote call sends the request's mints and amount, and `slippage_bps` equal to the request's or the default. The direct-routes hint is absent. |
| `Jupiter.New` | src/jupiter/mod.rs:34-40 | The adapter uses the given base URL, or the default Jupiter URL when none is given. It keeps the API key as given. |
| `Jupiter.EncodeQuoteParams` | src/jupiter/types.rs:3-12 | The quote parameters serialize as `inputMint`, `outputMint`, `amount` and `slippageBps`, in that order. The numbers are sent as their canonical decimal text, which parses back exactly. `onlyDirectRoutes` is sent exactly when the hint is present. |
| `Jupiter.QuoteQueryReadsBack` | src/jupiter/mod.rs:47-55 | The quote query reads back the request's mints, its amount and the resolved slippage. It carries no direct-routes hint. Reading back is `Http.Lookup`, a convention of this model: a repeated key reads as its first occurrence. |
| `Jupiter.ClassifyQuoteFailure` | src/jupiter/mod.rs:63-72 | A non-2xx quote reply is `NoRouteFound` exactly when its body contains "No route found" or "could not find any route". Otherwise it is `Api{Jupiter, "HTTP {status}: {body}"}`. |
| `Jupiter.Quote` | src/jupiter/mod.rs:42-102 | A Jupiter quote is tagged `Jupiter` and echoes the request's mints. It comes from a 2xx reply whose raw JSON is kept as `provider_data`. Its amounts, slippage and price impact are taken from that reply. A 2xx reply that decodes to a quote with two `u64` amounts always yields a quote. Transport failures and a body that is not JSON are `Network`. A non-2xx reply is classified. JSON that is not a quote, or a non-numeric amount, is `Serialization`. No other error kind occurs. |
| `Jupiter.OrderedInstructions` | src/jupiter/mod.rs:139-156 | The instruction list is, in order: the token-ledger instruction (if any), the compute-budget, setup and swap instructions, the cleanup instruction (if any), then the others. Its length is the sum of the parts, so it is never empty. |
| `Jupiter.ConvertInstruction` | src/jupiter/mod.rs:178-205 | Conversion succeeds exactly when the program id and every account key parse and the data decodes. It then preserves account count and order, each pubkey, and the signer and writable flags. Any failure is `Serialization`. |
| `Jupiter.ParseableAddresses` | src/jupiter/mod.rs:158-162 | Lookup-table addresses that fail to parse are dropped. Every kept key is the parse of some input. With all inputs valid, all are kept one for one. With none valid, none are kept. |
| `Jupiter.ParseableAddressesAppend` | src/jupiter/mod.rs:158-162 | Filtering preserves order: filtering a concatenation is the concatenation of the filtered parts. |
| `Jupiter.FetchLookupTable` | src/jupiter/mod.rs:212-225 | A table is fetched exactly when the account read and its decoding both succeed. The table is keyed by the address asked for and holds the decoded addresses. An RPC failure or a decode failure is `Solana` with that error. |
| `Jupiter.FetchAddressLookupTables` | src/jupiter/mod.rs:207-228 | The fetch succeeds exactly when every single fetch does. It then yields one table per address, in order, each the result of that address's fetch. Otherwise it yields the error of the first failing address, and it is `Solana`. |
| `Jupiter.ComputeUnits` | src/jupiter/mod.rs:169-173 | `compute_units` is `Some(n)` exactly when the reply's limit `n` is greater than 0. |
| `Jupiter.SwapRequestBody` | src/jupiter/mod.rs:110-114 | The swap request posts the quote's stored JSON as `quoteResponse`, the user's key as `userPublicKey`, and `dynamicComputeUnitLimit: true`. |
| `Jupiter.AssembleSwap` | src/jupiter/mod.rs:139-174 | A decoded swap-instructions reply becomes an `Instructions` swap: each instruction converted, in the fixed order, the tables fetched for the parseable addresses, and the compute-unit rule applied. One bad instruction gives `Serialization`. When all convert, the swap succeeds exactly when the table fetch does, and fails with its error otherwise. |
| `Jupiter.Swap` | src/jupiter/mod.rs:104-175 | A Jupiter swap is always the `Instructions` variant. Its instructions are the converted reply instructions, one for one and in the fixed order. Its tables are those fetched for the parseable addresses, and its compute units follow the limit rule. A 2xx reply whose instructions all convert yields a swap exactly when the tables fetch, and otherwise the fetch's error. One bad instruction aborts with `Serialization`. Transport failure is `Network`, a non-2xx reply is `Api` with `"HTTP {status}: {body}"`, and an undecodable body is `Serialization`. The swap step never reports `NoRouteFound`. |
| `Jupiter.SwapPostsQuotedJson` | src/jupiter/mod.rs:75-114 | After a successful quote, the swap posts back exactly the JSON the quote endpoint returned, which decodes as a quote. |
| `Jupiter.SwapOfConvertibleReply` | src/jupiter/mod.rs:116-174 | A 2xx swap-instructions reply whose instructions all convert and whose parseable tables all fetch always yields a swap. |
| `Jupiter.QuoteThenSwap` | src/jupiter/mod.rs:42-175 | A 2xx quote reply with numeric amounts yields a quote. If the swap-instructions reply to that quote's JSON is 2xx, every instruction converts and every named table fetches, the quote swaps. |
| `Dflow.OrderQuery` | src/dflow/mod.rs:125-145 | The order query lists `inputMint`, `outputMint`, `amount`, `slippageBps` (the request's or the default) in that order. Then comes `userPublicKey` exactly when a user key is given. Then come `maxRouteLength` and `onlyDirectRoutes=false` exactly when a route-length cap is configured. |
| `Dflow.New` | src/dflow/mod.rs:24-31 | The adapter uses the given base URL, or the default Dflow URL when none is given. It keeps the API key and the route-length cap as given. |
| `Dflow.OrderQueryReadsBack` | src/dflow/mod.rs:125-136 | The order query reads back the request's mints, its amount and the resolved slippage. Reading back is `Http.Lookup`, a convention of this model: a repeated key reads as its first occurrence. |
| `Dflow.OrderQueryUserKey` | src/dflow/mod.rs:138-140 | The order query carries `userPublicKey` exactly when a user key is given, and then it is that key. |
| `Dflow.OrderQueryRouteCap` | src/dflow/mod.rs:142-145 | With a route-length cap, the order query reads back `maxRouteLength` as the cap and `onlyDirectRoutes` as `false`. Without one, both are absent. |
| `Dflow.ClassifyOrderFailure` | src/dflow/mod.rs:155-165 | A non-2xx order reply is `NoRouteFound` exactly when its body contains "route_not_found" or "No route". Otherwise it is `Api{Dflow, "HTTP {status}: {body}"}`. |
| `Dflow.FetchOrder` | src/dflow/mod.rs:117-171 | An order is returned exactly when the reply is 2xx and decodes, and it is the decoded reply. Transport failure is `Network`. A non-2xx reply is classified, so `NoRouteFound` is returned exactly for a non-2xx reply whose body names a missing route. A 2xx body that does not decode is `Serialization`. |
| `Dflow.ProviderData` | src/dflow/mod.rs:55-60 | The stored payload reads back `amount` equal to the request's amount and `slippageBps` equal to the request's slippage or the default, next to the two mints. |
| `Dflow.Quote` | src/dflow/mod.rs:33-72 | A Dflow quote is tagged `Dflow`, echoes the request's mints and stores the payload above. Its amounts are the backend's decimal strings, parsed exactly. Its slippage and price impact are the backend's, not the request's. An order with two `u64` amounts always yields a quote. Fetch errors propagate unchanged, and non-numeric amounts are `Serialization`. |
| `Dflow.ReplayRequest` | src/dflow/mod.rs:79-91 | The swap rebuilds its request from the quote's mints and the stored amount and slippage. A missing or non-integer `amount` is `Serialization("missing amount in provider_data")`. With the amount present, a missing or non-integer `slippageBps` is `Serialization("missing slippageBps in provider_data")`. |
| `Dflow.Swap` | src/dflow/mod.rs:74-115 | Unreadable provider data fails before any order is fetched, and fetch errors propagate. An order without a transaction is `Api{Dflow, …}`. A base64 or bincode failure is `Serialization`. A transaction that decodes always yields the `Transaction` variant holding it, with `last_valid_block_height` defaulting to 0. |
| `Dflow.ReplayRecoversRequest` | src/dflow/mod.rs:79-91 | After a successful quote, the replayed request has the original mints and amount and the slippage the quote resolved. |
| `Dflow.SwapReplaysQuoteQuery` | src/dflow/mod.rs:86-95 | The swap's order query is exactly the quote's, with the user key inserted after the slippage. |
| `Dflow.QuoteThenSwap` | src/dflow/mod.rs:33-115 | An order with numeric amounts yields a quote. If the replayed order for the user carries a transaction that decodes, the quote swaps. |
| `TitanRoutes.BestRouteIndex` | src/titan/types.rs:3-5 | The `max_by_key` fold picks the position of the last route whose `out_amount` is maximal. |
| `TitanRoutes.SelectBestRoute` | src/titan/types.rs:3-5 | `select_best_route` returns `None` exactly for no routes. Otherwise it returns a route of the input whose `out_amount` is at least every other's, and it is the last such route. |
| `TitanRoutes.LastMaximumUnique` | src/titan/types.rs:4 | There is at most one last maximal position, so the choice is determined by the iteration order. |
| `TitanRoutes.SelectBestRouteIsLastMaximum` | src/titan/types.rs:4 | The selected route is the one at the last maximal position. |
| `TitanRoutes.SelectSingleton` | src/titan/types.rs:4 | A single route is always selected. |
| `TitanRoutes.SelectExample` | src/titan/types.rs:4 | Out amounts 100, 300, 200 select the route paying 300. |
| `TitanRoutes.SelectTieTakesLast` | src/titan/types.rs:4 | Of two routes paying the same, the later one is selected. |
| `Titan.New` | src/titan/mod.rs:30-38 | The WebSocket URL is the given one, else the environment's, else the default. The token is the given one, or empty. |
| `Titan.GetClient` | src/titan/mod.rs:40-49 | A client is obtained exactly when connecting with the provider's URL and token succeeds. A connection failure is `Titan` with the connector's message. |
| `Titan.ProviderData` | src/titan/mod.rs:73-79 | The stored payload reads back the request's `amount`, the resolved `slippageBps` and the request's `onlyDirectRoutes`. |
| `Titan.Quote` | src/titan/mod.rs:51-91 | A Titan quote is tagged `Titan`, echoes the mints and has no price impact. Its slippage is the request's or the default. Its amounts are the price reply for the request's mints and amount. A connected client whose price request succeeds always yields a quote. A connection failure is returned as is, and a price failure is `Titan` with its message. Every failure is a `Titan` error. |
| `Titan.SwapRequestFor` | src/titan/mod.rs:101-125 | The stream request is `ExactIn` on the quote's mints with the stored amount. A missing amount is `Titan("missing amount in provider_data")`. A missing slippage becomes `None`, not an error. `onlyDirectRoutes` is read back as an optional bool. |
| `Titan.TruncatedComputeUnits` | src/titan/mod.rs:147 | Compute units are present exactly when the prepared route gives them. The result is `cu as u32`: it fits in 32 bits and is congruent to the input modulo 2^32, so a value that fits is kept unchanged and a larger one keeps its low 32 bits. |
| `Titan.TruncationIsLowBits` | src/titan/mod.rs:147 | Any 32-bit value congruent to the compute units modulo 2^32 is the one the swap carries, so `cu as u32` is determined by its low 32 bits. |
| `Titan.Swap` | src/titan/mod.rs:93-149 | A Titan swap is always the `Instructions` variant, built from the best route of the first stream message. `NoRouteFound` occurs exactly when the stream yields no message, or a message with no routes. Connection failures come before provider-data errors. A stream or preparation failure is `Titan` with its message. A prepared best route always yields a swap. |
| `Titan.SwapReplaysQuote` | src/titan/mod.rs:101-118 | After a successful quote, the swap requests exactly the quoted mints, amount, resolved slippage and direct-routes hint. |
| `Titan.QuoteThenSwap` | src/titan/mod.rs:51-149 | A connected client that prices the pair yields a quote. If it streams a non-empty first message for that quote and prepares its best route, the quote swaps. |
| `Aggregator.New` | src/aggregator.rs:32-60 | Construction fills every provider slot and copies `default_slippage_bps`. Each adapter gets its URL (or the default), key and route-length cap from the config. |
| `Aggregator.NewConfiguresAll` | src/aggregator.rs:51-59 | A new aggregator consults all three providers, in the order Jupiter, Titan, Dflow. Each quote comes from the adapter its constructor builds from the config. |
| `Aggregator.ConfiguredQuoteNeverUnconfigured` | src/aggregator.rs:62-111 | `ProviderNotConfigured` comes only from an empty slot: a configured slot never answers a quote with it. |
| `Aggregator.ConfiguredSwapNeverUnconfigured` | src/aggregator.rs:134-184 | A configured slot never answers a swap with `ProviderNotConfigured`. |
| `Aggregator.NewNeverUnconfigured` | src/aggregator.rs:51-59 | A new aggregator never answers a quote or a swap with `ProviderNotConfigured`. |
| `Aggregator.ConfiguredProviders` | src/aggregator.rs:113-129 | The consultation order lists exactly the configured providers, in the order Jupiter, Titan, Dflow. |
| `Aggregator.Quote` | src/aggregator.rs:62-111 | An absent slot yields `ProviderNotConfigured(p)`. A present slot yields exactly that adapter's quote with the aggregator's default slippage. Any quote returned is tagged with the provider asked and echoes the request's mints. |
| `Aggregator.QuoteEach` | src/aggregator.rs:131 | Quoting a list of providers yields one answer per provider, in the same order. Each answer is that provider's individual quote. |
| `Aggregator.QuoteAll` | src/aggregator.rs:113-132 | There is one entry per configured slot, in the order Jupiter, Titan, Dflow, so Jupiter's answer comes first and Dflow's last. Each entry equals that provider's individual quote, so one failure does not alter the others. The list is empty exactly when no slot is configured. |
| `Aggregator.Swap` | src/aggregator.rs:134-184 | The swap is dispatched solely on `quote.provider`. An absent slot yields `ProviderNotConfigured(quote.provider)`. |
| `Aggregator.SwapRoutesToQuotingAdapter` | src/aggregator.rs:134-184 | A quote obtained from provider p is swapped by p's own adapter. |

## Left out

- HTTP, WebSocket and RPC traffic (reqwest sends, the Titan client's streams,
  `get_account`): modelled as function-valued inputs. Timeouts, retries and the
  transport's own behaviour are not modelled.
- Foreign decoders and compilers (base58, base64, bincode, serde decoding into the
  wire structs, `AddressLookupTable::deserialize`, `try_compile`,
  `prepare_instructions`): abstract partial functions. Their own correctness is not
  part of this model.
- The float price-impact conversion `(p * 100.0) as u16`: floating point. It is the
  abstract `Codecs.percentToBps`.
- The lazy `OnceCell` client of the Titan adapter: its point is at-most-once
  initialisation under concurrency. The model connects on every call, which yields
  the same results for a deterministic connector.
- The `join_all` concurrency of `quote_all`: `QuoteAll` is the sequential map. Only
  the order of the entries and their independence are modelled.
- Cargo feature gating: the model is the all-features build, with every slot an
  `Option`.
- Display strings of foreign errors: carried as opaque text. Only the formats the
  core itself writes are exact: `"HTTP {status}: {body}"`, the missing-field
  messages, and `ParseIntError`'s three messages. A status's reason phrase is part of
  the status value, not a table.
- Tracing (`debug!`), `stream.stop()` (its result is ignored), the reqwest client
  construction, and everything under `tests/` (live-API only).
- The `InsufficientLiquidity` and `QuoteExpired` error kinds are declared but never
  produced by the core. They appear only in the `SwapError` datatype.
- `Titan.Swap`: the width of the Titan client's `compute_units` is not visible in this
  source. It is modelled as a `u64` cast `as u32` (explicit truncation), which is the
  identity if the client's type is already 32 bits wide.

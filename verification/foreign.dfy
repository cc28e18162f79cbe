/** Foreign library operations the adapters call, as uninterpreted partial functions:
    each either yields a value or fails with its error's display text. */
module Foreign {
  import opened Wrappers
  import opened Numeric
  import Json
  import opened Solana
  import JupiterWire

  datatype Codecs = Codecs(
    // `Pubkey::to_string`, base58
    showPubkey: Pubkey -> string,
    // `Pubkey::from_str`, base58
    parsePubkey: string -> Result<Pubkey, string>,
    // base64 STANDARD `decode`
    base64Decode: string -> Result<Bytes, string>,
    // `bincode::deserialize::<VersionedTransaction>`
    decodeTransaction: Bytes -> Result<VersionedTransaction, string>,
    // `serde_json::from_value::<JupiterQuoteApiResponse>`
    jupiterQuoteFromValue: Json.Value -> Result<JupiterWire.QuoteApiResponse, string>,
    // `pct.parse::<f64>().ok().map(|p| (p * 100.0) as u16)`, floating point
    percentToBps: string -> Option<U16>,
    // `AddressLookupTable::deserialize(..).addresses`
    decodeLookupTable: Bytes -> Result<seq<Pubkey>, string>)

  /** The chain RPC client: `get_account(key).data`. */
  datatype RpcClient = RpcClient(getAccountData: Pubkey -> Result<Bytes, string>)
}

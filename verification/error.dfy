/** The canonical error kinds; every failure of the core is exactly one of them. */
module Errors {
  import opened Types

  /** Foreign error values (reqwest, Solana, serde, Titan client) are carried as their
      display text. */
  datatype SwapError =
    | NoRouteFound
    | InsufficientLiquidity
    | QuoteExpired
    | ProviderNotConfigured(provider: Provider)
    | Api(provider: Provider, message: string)
    | Network(message: string)
    | Solana(message: string)
    | Serialization(message: string)
    | Titan(message: string)
}

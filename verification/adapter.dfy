/** Adaptation rules shared by the three provider adapters. */
module Adapter {
  import opened Wrappers
  import opened Numeric
  import opened Strings
  import opened Types
  import opened Errors
  import opened Http
  import opened Foreign

  /** `request.slippage_bps.unwrap_or(default_slippage_bps)`. */
  function ResolveSlippage(request: QuoteRequest, defaultSlippageBps: U16): (bps: U16)
    ensures request.slippageBps.Some? ==> bps == request.slippageBps.value
    ensures request.slippageBps.None? ==> bps == defaultSlippageBps
  {
    request.slippageBps.UnwrapOr(defaultSlippageBps)
  }

  /** An amount string of a backend reply, `s.parse::<u64>()` with its error mapped to
      `Serialization`: exactly the decimal numerals below 2^64 are accepted, with their
      exact value, so an amount is never truncated or wrapped. */
  function ParseAmount(s: string): (r: Result<U64, SwapError>)
    ensures r.Success? <==> IsU64Literal(s)
    ensures r.Success? ==> r.value == Horner(0, UnsignedDigits(s))
    ensures r.Failure? ==> r.error.Serialization?
  {
    ParseU64(s).MapError((k: IntErrorKind) => Serialization(k.Message()))
  }

  /** `price_impact_pct.and_then(..)`: an absent percentage means no impact; a present
      one goes through the float conversion, which may itself reject it. */
  function PriceImpact(codecs: Codecs, pct: Option<string>): (bps: Option<U16>)
    ensures pct.None? ==> bps.None?
    ensures bps.Some? ==> pct.Some? && codecs.percentToBps(pct.value) == bps
    ensures pct.Some? && codecs.percentToBps(pct.value).Some? ==> bps.Some?
  {
    match pct
    case Some(s) => codecs.percentToBps(s)
    case None => None
  }

  /** The `Api` error of a non-2xx reply: `"HTTP {status}: {body}"`. */
  function HttpFailure(provider: Provider, status: StatusCode, body: string): (e: SwapError)
    ensures e.Api? && e.provider == provider
    ensures var k := |DecimalString(status.code)|;
            && 5 + k < |e.message| && e.message[..5] == "HTTP "
            && ParseU64(e.message[5..5 + k]) == Success(status.code)
    ensures var d := status.Display();
            && |e.message| == 7 + |d| + |body|
            && e.message[5..5 + |d|] == d && e.message[5 + |d|..7 + |d|] == ": "
    ensures |body| <= |e.message| && e.message[|e.message| - |body|..] == body
  {
    var shown := status.Display();
    var k := |DecimalString(status.code)|;
    var head := "HTTP " + shown;
    var tail := ": " + body;
    assert head[..5] == "HTTP " && head[5..] == shown;
    assert head[5..5 + k] == shown[..k];
    assert (head + tail)[..|head|] == head && (head + tail)[|head|..] == tail;
    assert (head + tail)[5..5 + k] == shown[..k];
    assert tail[2..] == body;
    Api(provider, head + tail)
  }

  /** The amounts the adapters themselves render are always accepted back unchanged. */
  lemma ParseAmountOfRendered(n: U64)
    ensures ParseAmount(DecimalString(n)) == Success(n)
  {
  }
}

/** Titan's candidate routes and the choice among them (`select_best_route`). */
module TitanRoutes {
  import opened Wrappers
  import opened Numeric
  import opened Solana

  /** One candidate execution route of a Titan quote; only `outAmount` takes part in
      the choice, the rest is handed on to instruction preparation. */
  datatype SwapRoute = SwapRoute(
    inAmount: U64,
    outAmount: U64,
    slippageBps: U16,
    instructions: seq<Instruction>,
    addressLookupTables: seq<Pubkey>,
    computeUnits: Option<U64>)

  /** `i` is the position of the last route whose `outAmount` is maximal. */
  ghost predicate IsLastMaximum(routes: seq<SwapRoute>, i: int) {
    && 0 <= i < |routes|
    && (forall j :: 0 <= j < |routes| ==> routes[j].outAmount <= routes[i].outAmount)
    && (forall j :: i < j < |routes| ==> routes[j].outAmount < routes[i].outAmount)
  }

  /** The fold behind `Iterator::max_by_key`: walking left to right, a route at least as
      good as the best so far replaces it, so the last of equal maxima wins. */
  function BestRouteIndex(routes: seq<SwapRoute>): (i: nat)
    requires 0 < |routes|
    ensures IsLastMaximum(routes, i)
    decreases |routes|
  {
    if |routes| == 1 then 0
    else
      var best := BestRouteIndex(routes[..|routes| - 1]);
      if routes[|routes| - 1].outAmount >= routes[best].outAmount then |routes| - 1 else best
  }

  /** `select_best_route`: `routes.into_iter().max_by_key(|r| r.out_amount)`. */
  function SelectBestRoute(routes: seq<SwapRoute>): (r: Option<SwapRoute>)
    ensures r.None? <==> |routes| == 0
    ensures r.Some? ==> r.value in routes
    ensures r.Some? ==> forall j :: 0 <= j < |routes| ==> routes[j].outAmount <= r.value.outAmount
    ensures r.Some? ==> exists i :: IsLastMaximum(routes, i) && routes[i] == r.value
  {
    if |routes| == 0 then None else Some(routes[BestRouteIndex(routes)])
  }

  /** There is only one last maximum, so the choice is fully determined by the order. */
  lemma LastMaximumUnique(routes: seq<SwapRoute>, i: int, k: int)
    requires IsLastMaximum(routes, i) && IsLastMaximum(routes, k)
    ensures i == k
  {
    // Each dominates the other, so they pay the same; a later one would pay strictly less.
    assert routes[k].outAmount <= routes[i].outAmount;
    assert routes[i].outAmount <= routes[k].outAmount;
  }

  /** Whatever route the reference definition designates is the one selected. */
  lemma SelectBestRouteIsLastMaximum(routes: seq<SwapRoute>, i: int)
    requires IsLastMaximum(routes, i)
    ensures SelectBestRoute(routes) == Some(routes[i])
  {
  }

  /** A single candidate is always chosen. */
  lemma SelectSingleton(route: SwapRoute)
    ensures SelectBestRoute([route]) == Some(route)
  {
  }

  /** Out amounts 100, 300, 200 select the route paying 300. */
  lemma SelectExample(a: SwapRoute, b: SwapRoute, c: SwapRoute)
    requires a.outAmount == 100 && b.outAmount == 300 && c.outAmount == 200
    ensures SelectBestRoute([a, b, c]) == Some(b)
  {
    SelectBestRouteIsLastMaximum([a, b, c], 1);
  }

  /** Of two routes paying the same, the later one is chosen. */
  lemma SelectTieTakesLast(a: SwapRoute, b: SwapRoute)
    requires a.outAmount == b.outAmount
    ensures SelectBestRoute([a, b]) == Some(b)
  {
  }
}

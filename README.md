# Triangular-arbitrage dashboard, modelled in Dafny

The repository is a React dashboard with two near-duplicate bot components and one health endpoint.

- **Real-API bot**: `components/ArbitrageBot.tsx`. It scans Trader Joe (Avalanche) and Raydium (Solana) for triangular arbitrage. Quotes come from public price APIs, with a CoinGecko or generated fallback and ±1% market noise.
- **Exotic-chain bot**: `components/arbitragebot.tsx`. It simulates ten DEXs on nine chains. Quotes are generated from a table of token price ranges, perturbed by a chain-specific inefficiency.

Both components share the same logic:

- **The evaluator.** It starts a triangle with 1000 units of the base token. It follows both three-leg cycles, taking the exchange fee once per leg. It keeps the better cycle and subtracts the gas as a percentage. It then judges the result viable against a profit threshold, a liquidity threshold and a sanity ceiling.
- **The scan.** The scan connects each enabled exchange and evaluates every focused pair string such as `AVAX-JOE-USDC.e`. The real-API bot does this in batches of three; the exotic bot goes one pair at a time. It prepends the results to a capped history.
- **The analytics.** The scan recomputes the analytics: a total, the average profit of the viable results, and the top pairs and exchanges by count.

The health endpoint `pages/api/health.ts` does two things:
- it classifies four DEX APIs by the outcome of one request each;
- it derives an overall status and HTTP code from the heap usage and the share of healthy APIs.

Modules:

- `Wrappers`: `Option` and the present values of a sequence of options.
- `Triangular`: the evaluator shared by both components. It is parameterised by:
  - the per-leg fee;
  - the total gas;
  - the sanity ceiling.
- `PairCombos`: `split("-")` and `join` on focused-pair strings.
- `ScanAnalytics`: the shared scan tail. It covers:
  - the history cap;
  - the per-pair and per-exchange tallies, as insertion-ordered dictionaries;
  - the stable sort by count;
  - the top-K lists;
  - the analytics updater.
- `RealApiBot`: `components/ArbitrageBot.tsx`.
- `ExoticBot`: `components/arbitragebot.tsx`.
- `Health`: `pages/api/health.ts`.

Modelling conventions:

- **Numbers.** Numbers are `real`. Every `Math.random()` draw is an input in [0, 1).
- **State updates.** React state updaters are pure functions from the old state to the new one.
- **Scan loops.** The scan loops are methods proved against specification functions.
- **Network results.** What the network returns is an input: a quote, whether a request succeeded, an HTTP status.

## Model

| member | source | states |
|---|---|---|
| Triangular.Evaluate | components/ArbitrageBot.tsx:374-428 | Each cycle profit is the percentage gained by that cycle from 1000 units. The best profit is the larger one. Route 1 is chosen iff it gains strictly more, so ties go to route 2. The inefficiency is the cross-rate gap and is ≥ 0. Net = best − gas/10. The minimum liquidity is one of the three legs and at most each of them. Viable iff net > threshold, the minimum liquidity > threshold and \|net\| < ceiling. |
| Triangular.CrossRateInefficiency | components/ArbitrageBot.tsx:417-420 | The relative gap between the implied cross rate p13/p23 and p12, in percent. It is never negative and is 0 when p12 ≤ 0. For p12 > 0 it is 0 iff p13 = p12·p23. |
| Triangular.CalculateOpportunity | components/ArbitrageBot.tsx:359-451 | No result iff a quote is missing. Otherwise the record carries: the exchange; the `a-b-c` label; the three quote prices as its price data; the legs' liquidities, a missing one counting as 0; fees = 3·fee; the gas estimate. Its net profit, route and inefficiency are exactly those computed from its price data (`EvaluatedFromPriceData`). Viable iff the three conditions hold. |
| Triangular.EvaluatedFigureBounds | components/ArbitrageBot.tsx:398-422 | A record evaluated from its price data has a route that starts and ends at token 3 and visits the other two tokens once each. Its inefficiency is ≥ 0, and with a non-negative gas estimate its net profit is at most the better cycle's. |
| Triangular.Route1ClosedForm | components/ArbitrageBot.tsx:374-385 | Route 1 ends with 1000·(p12·p23/p13)·k³, where k = 1 − fee/100. |
| Triangular.Route2ClosedForm | components/ArbitrageBot.tsx:387-397 | Route 2 ends with 1000·(p13/(p23·p12))·k³. |
| Triangular.CyclesAreReciprocal | components/ArbitrageBot.tsx:374-397 | The two cycles' growth factors multiply to k⁶, the fee factor of six legs. Between them the cycles can never beat the fees. |
| Triangular.Route1ProfitableIff | components/ArbitrageBot.tsx:374-385 | Route 1 gains iff p12·p23·k³ > p13. |
| Triangular.AtMostOneCycleGains | components/ArbitrageBot.tsx:374-402 | For fees in [0, 100], the two cycles never both gain. |
| Triangular.ConsistentRatesNoArbitrage | components/ArbitrageBot.tsx:374-397 | With fee 0 and p13 = p12·p23, both profit percentages are exactly 0. |
| Triangular.ConsistentRatesNeverGain | components/arbitragebot.tsx:374-397 | For any fee in [0, 100] and p13 = p12·p23, both cycles end equal and neither gains. |
| Triangular.ConsistentRatesNeverViable | components/ArbitrageBot.tsx:422-428 | Consistent rates with a non-negative gas and threshold are never viable. |
| Triangular.WorkedExample | components/ArbitrageBot.tsx:374-428 | One concrete triangle, evaluated to its exact profit, route and viability. |
| PairCombos.Split | components/ArbitrageBot.tsx:499 | `split` yields at least one piece, and no piece contains the separator. |
| PairCombos.JoinSplit | components/ArbitrageBot.tsx:499 | Joining the pieces of `split` gives back the string. |
| PairCombos.SplitJoin | components/ArbitrageBot.tsx:499 | Splitting the join of separator-free pieces gives back the pieces. |
| PairCombos.ThreeTokenLabel | components/ArbitrageBot.tsx:432 | For a three-token combo, the `pairs` label is the combo itself. |
| ScanAnalytics.CollectNewOpportunities | components/ArbitrageBot.tsx:528-530 | The gathering loop yields the per-exchange results concatenated in exchange order. |
| ScanAnalytics.FlattenMembership | components/ArbitrageBot.tsx:528-530 | Every opportunity an exchange produced is gathered. |
| ScanAnalytics.CapHistory | components/ArbitrageBot.tsx:538 | The history is new ++ old truncated to the cap: its length is min(\|new\| + \|old\|, cap). Position i holds new[i] for i < \|new\| and old[i − \|new\|] after that. |
| ScanAnalytics.HistoryOfTwoScans | components/ArbitrageBot.tsx:538 | Capping after two scans is the same as capping once on the second scan's results followed by the first's. |
| ScanAnalytics.KeyOfEntry | components/ArbitrageBot.tsx:549-557 | An entry's key is among the tally's keys. |
| ScanAnalytics.RecordShape | components/ArbitrageBot.tsx:550-552 | Recording one result keeps the keys distinct and the counts positive. It adds the key to the key set and raises the total count by 1. |
| ScanAnalytics.RecordLookup | components/ArbitrageBot.tsx:550-552 | Recording raises the count by 1 and the total profit by `profit` for that key only. Every other key is unchanged. |
| ScanAnalytics.StatsOfShape | components/ArbitrageBot.tsx:549-557 | The tally of a list has distinct keys and positive counts summing to the list's length. |
| ScanAnalytics.StatsOfKeys | components/ArbitrageBot.tsx:549-557 | The keys of the tally are exactly the keys of the listed opportunities. |
| ScanAnalytics.StatsOfLookup | components/ArbitrageBot.tsx:549-557 | The tally's count for a key is the number of opportunities under it, and its total is their summed profit. |
| ScanAnalytics.InsertByCountPermutes | components/ArbitrageBot.tsx:560 | Inserting one entry permutes the list and the entry. |
| ScanAnalytics.InsertByCountStable | components/ArbitrageBot.tsx:560 | Insertion keeps the relative order of entries with the same count, so the sort is stable. |
| ScanAnalytics.InsertByCountSorted | components/ArbitrageBot.tsx:560 | Inserting into a list sorted by non-increasing count keeps it sorted. |
| ScanAnalytics.SortByCountCorrect | components/ArbitrageBot.tsx:559-560 | The sort by `b.count - a.count` is a permutation, sorted by non-increasing count, and stable for each count. |
| ScanAnalytics.TopEntryAt | components/ArbitrageBot.tsx:559-566 | The i-th top entry summarises the i-th sorted entry, which is one of the tally's entries. |
| ScanAnalytics.ListedKeys | components/ArbitrageBot.tsx:559-566 | The j-th top entry has the key of the j-th sorted entry. |
| ScanAnalytics.TopEntriesRanked | components/ArbitrageBot.tsx:559-566 | The top list has min(\|tally\|, K) entries, in non-increasing count. |
| ScanAnalytics.TopEntriesAreTop | components/ArbitrageBot.tsx:559-566 | An entry left out of the top list has a count no greater than any listed entry's. |
| ScanAnalytics.ReduceAnalytics | components/ArbitrageBot.tsx:542-593 | The `forEach` tallying loop and the rest of the updater compute exactly `AnalyticsUpdate`. |
| ScanAnalytics.ViablesAreTheViableOnes | components/ArbitrageBot.tsx:543 | The viable filter keeps exactly the viable results. |
| ScanAnalytics.VolumeNonNegative | components/ArbitrageBot.tsx:577-582 | The scan's volume (the sum of the minimum leg liquidities) is ≥ 0 when liquidities are. |
| ScanAnalytics.NothingFoundNothingChanges | components/ArbitrageBot.tsx:541 | A scan that found nothing leaves the analytics unchanged. |
| ScanAnalytics.AnalyticsTotals | components/ArbitrageBot.tsx:543-588 | The total grows by exactly \|new\|. The average is the mean profit of this scan's viable results, the same whatever the previous analytics were, and 0 without viable results. |
| ScanAnalytics.AverageTimesCount | components/ArbitrageBot.tsx:585-587 | The average times the number of viable results equals their summed profit, and the average of no results is 0. |
| ScanAnalytics.TopListsRanked | components/ArbitrageBot.tsx:559-575 | Each top list has at most its cap and at most \|viable\| entries, sorted by non-increasing count. |
| ScanAnalytics.DistinctKeysAtMost | components/ArbitrageBot.tsx:549-557 | A tally has no more entries than results tallied. |
| ScanAnalytics.TopEntryTally | components/ArbitrageBot.tsx:562-566 | Every top entry has count ≥ 1, equal to the number of viable results under its key, and an average equal to their summed profit over that count. |
| ScanAnalytics.TopEntriesAreTallies | components/ArbitrageBot.tsx:559-575 | The same, for the top lists of the updated analytics. |
| ScanAnalytics.StatEntryIsLookup | components/ArbitrageBot.tsx:549-557 | A tally entry holds the count and the total of its key. |
| ScanAnalytics.TotalVolumeNeverDecreases | components/ArbitrageBot.tsx:591 | The total volume never decreases across a scan when liquidities are non-negative. |
| ScanAnalytics.AfterScan | components/ArbitrageBot.tsx:538-594 | After a scan the history starts with the new results and is capped, and the total grows by the number of new results. |
| RealApiBot.ConfigOf | components/ArbitrageBot.tsx:102-125 | A configuration exists iff the exchange is `traderjoe` or `raydium`, and its fee lies in (0, 1). |
| RealApiBot.RecordApiCall | components/ArbitrageBot.tsx:130-133 | A call adds its URL to the counter's keys, raises that URL's count by exactly 1 and leaves every other URL's count unchanged. |
| RealApiBot.CountsMatchRequests | components/ArbitrageBot.tsx:130-133 | After a sequence of calls, each URL's count is its old count plus the number of calls to it. |
| RealApiBot.FallbackBasePrice | components/ArbitrageBot.tsx:310-316 | The base price of every token is positive, 1 for an unknown token. |
| RealApiBot.FallbackRate | components/ArbitrageBot.tsx:314-319 | The generated rate of a pair is positive. |
| RealApiBot.GenerateFallbackPrice | components/ArbitrageBot.tsx:308-324 | A generated quote has the pair's generated rate as its price, liquidity 3000 on Raydium and 4000 elsewhere, volume 15000, the `a/b` symbol and the `-generated` source. |
| RealApiBot.FallbackRatesReciprocal | components/ArbitrageBot.tsx:314-319 | The generated rates for a/b and b/a multiply to 1. |
| RealApiBot.FallbackRatesChain | components/ArbitrageBot.tsx:314-319 | Generated rates compose: a/c = a/b · b/c. |
| RealApiBot.ResolveQuote | components/ArbitrageBot.tsx:282-305 | An API quote is kept. A CoinGecko answer gives the quote `tokenA/tokenB` from source `avalanche-fallback` (Trader Joe) or `raydium-fallback` (otherwise), with liquidity 2000 and volume 5000. Its price is the answer's, or 1 when that is missing or zero. With neither, the quote is generated. The price is always positive. |
| RealApiBot.ApplyMarketNoise | components/ArbitrageBot.tsx:340-344 | Only the price changes. A zero price is left alone, and a positive price p moves into [0.99p, 1.01p). |
| RealApiBot.FetchExchangePrice | components/ArbitrageBot.tsx:327-351 | A quote exists iff the exchange is configured. Its price is positive and within ±1% of the resolved quote. |
| RealApiBot.ChainGas | components/ArbitrageBot.tsx:404-407 | Avalanche gas is in [0.2, 1.0) and Solana gas in [0.002, 0.01). |
| RealApiBot.TotalGasCost | components/ArbitrageBot.tsx:409 | The total gas is three times the chain gas: [0.6, 3.0) on Avalanche and [0.006, 0.03) on Solana. |
| RealApiBot.CalculateArbitrage | components/ArbitrageBot.tsx:354-457 | A result exists iff the exchange is configured. It carries the exchange, the label, fees = 3·fee and the gas estimate. Its price data are the three fetched quotes' prices. Its net profit is max(profit1, profit2) − gas/10, and its route is route 1 only when route 1 is strictly better. Its leg liquidities are the three quotes' liquidities, 0 when absent. Viable iff net > the profit threshold, the smallest leg > the liquidity threshold and \|net\| < 150. |
| RealApiBot.GasBoundsNetProfit | components/ArbitrageBot.tsx:404-423 | Net ≤ best, and net exceeds best − 0.3 on Avalanche and best − 0.003 on Solana. |
| RealApiBot.GeneratedQuotesHoldNoArbitrage | components/ArbitrageBot.tsx:308-397 | On three generated rates neither cycle gains at any fee from 0 to 100 percent. |
| RealApiBot.PairResults | components/ArbitrageBot.tsx:494-505 | One result per focused pair, in order. |
| RealApiBot.BatchesPartition | components/ArbitrageBot.tsx:493-495 | The batches of three concatenate to the focused pairs, and each holds 1 to 3 of them. |
| RealApiBot.BatchAt | components/ArbitrageBot.tsx:494-495 | Batch k is `focusedPairs.slice(3k, 3k + 3)`. |
| RealApiBot.ScanExchange | components/ArbitrageBot.tsx:489-517 | Each batch the loop evaluates is the next entry of `Batches(focusedPairs, 3)`. The loop pushes exactly the present results, in focused-pair order. |
| RealApiBot.BatchIndexInRange | components/ArbitrageBot.tsx:493-495 | Every multiple of 3 below the number of focused pairs starts a batch. |
| RealApiBot.ConfiguredExchangeEvaluatesEveryPair | components/ArbitrageBot.tsx:494-510 | A configured exchange yields one result per focused pair. |
| RealApiBot.Connect | components/ArbitrageBot.tsx:467-488 | An exchange already connected is left alone. Otherwise a configured exchange makes one counted test call and becomes "connected" and a member of the set when the test succeeds. Else it is marked "error" and stays out. |
| RealApiBot.ConnectIsLocal | components/ArbitrageBot.tsx:467-488 | Connecting one exchange changes no other exchange's status or membership. |
| RealApiBot.AllExchangeResults | components/ArbitrageBot.tsx:467-526 | One result list per enabled exchange. |
| RealApiBot.ScanForOpportunities | components/ArbitrageBot.tsx:460-595 | A stopped bot changes nothing. A running scan's dashboard is `AfterScan` of the gathered per-exchange results. The connected set only grows, by enabled exchanges. The connection state is `ConnectionsAfter` the enabled exchanges' turns. Each URL's count grows by the number of test requests to it. An exchange that is not enabled keeps its membership and status. With no exchange enabled twice, each enabled one ends as `ScanOutcome` says. |
| RealApiBot.ConnectionsAfterCalls | components/ArbitrageBot.tsx:467-477 | The counter after a scan's turns is the old one with one counted call per test request. There is one such request per configured exchange the render did not see connected, in order. |
| RealApiBot.ConnectionsAfterOutside | components/ArbitrageBot.tsx:467-488 | An exchange that is not enabled keeps its membership and status through the whole scan. |
| RealApiBot.ConnectionsAfterOutcome | components/ArbitrageBot.tsx:467-488 | With no exchange enabled twice, an exchange the render saw connected keeps its membership and status. Any other enabled exchange is "connected" and in the set iff it is configured and its test succeeds, and is "error" and out of the set otherwise. |
| ExoticBot.ConfigOf | components/arbitragebot.tsx:111-212 | A configuration exists iff the exchange is one of the ten. Its fee is in (0, 1) and its minimum liquidity positive. |
| ExoticBot.TableIsPositive | components/arbitragebot.tsx:236-293 | Every token in the price table has a positive lower bound and a non-negative span. |
| ExoticBot.Lookup | components/arbitragebot.tsx:311-312 | A token's entry is found iff the token is listed, and it is positive. |
| ExoticBot.RangeOf | components/arbitragebot.tsx:311-312 | A listed token's range or the unlisted range 0.5 + r·5, always positive. |
| ExoticBot.InRange | components/arbitragebot.tsx:236-293 | A drawn price lies in [low, low + span] and is positive. |
| ExoticBot.SimulatedPrice | components/arbitragebot.tsx:311-312 | A token's simulated price is positive and within its range. |
| ExoticBot.TheoreticalRate | components/arbitragebot.tsx:315 | The theoretical rate priceA/priceB is positive. |
| ExoticBot.SelfQuoteIsParity | components/arbitragebot.tsx:311-315 | A listed token quoted against itself reads one table entry, so the rate is exactly 1. |
| ExoticBot.ChainInefficiency | components/arbitragebot.tsx:296-309 | Each chain's base and volatility are positive and sum to at most 0.06. |
| ExoticBot.InefficiencyOf | components/arbitragebot.tsx:318-319 | The inefficiency lies in [−(v+b)/2, (v+b)/2). |
| ExoticBot.NoisyRate | components/arbitragebot.tsx:315-320 | The final price lies in [theo·(1 − (v+b)/2), theo·(1 + (v+b)/2)) and is positive. |
| ExoticBot.LiquidityMultiplier | components/arbitragebot.tsx:323-335 | Each chain's liquidity multiplier lies in [0.15, 1.2]. |
| ExoticBot.GeneratedLiquidity | components/arbitragebot.tsx:336 | The liquidity lies in [minLiquidity·mult, 5·minLiquidity·mult). |
| ExoticBot.GeneratedQuote | components/arbitragebot.tsx:315-344 | A quote's price is within the band around the theoretical rate and positive. Its liquidity is in [floor, 5·floor) and its volume in [2, 10)·liquidity. It carries the `a/b` symbol and the exchange as source. |
| ExoticBot.FetchExoticPrice | components/arbitragebot.tsx:215-349 | A quote exists iff the exchange is configured. It lies within the chain's band around the theoretical rate, with bounded liquidity and volume. |
| ExoticBot.ChainGas | components/arbitragebot.tsx:406-418 | Each chain's gas estimate lies in [0.01, 2.5). |
| ExoticBot.CalculateTriangularArbitrage | components/arbitragebot.tsx:352-469 | A result exists iff the exchange is configured. The gas estimate is the chain gas, taken once, and positive. Each leg's liquidity is the generated quote's, within the generated band. Its price data are the three generated quotes' prices. Its net profit is max(profit1, profit2) − gas/10, and its route is route 1 only when route 1 is strictly better. Viable iff net > the profit threshold, the smallest leg > the liquidity threshold and \|net\| < 100. |
| ExoticBot.NetProfitNearBest | components/arbitragebot.tsx:406-434 | All three rates are positive, and net lies in (best − 0.25, best]. |
| ExoticBot.SanityCeilingsDisagree | components/arbitragebot.tsx:437-440 | A triangle with net profit 120% is viable under the real-API ceiling of 150 and not under this ceiling of 100. |
| ExoticBot.PairResults | components/arbitragebot.tsx:504-516 | One result per focused pair, in order. |
| ExoticBot.ScanExchange | components/arbitragebot.tsx:501-518 | The `for…of` loop pushes exactly the present results, in focused-pair order. |
| ExoticBot.ScanKeepsPresentResults | components/arbitragebot.tsx:504-516 | An opportunity is pushed iff some pair produced it, and no more results than pairs are pushed. |
| ExoticBot.ConfiguredExchangeEvaluatesEveryPair | components/arbitragebot.tsx:504-516 | A configured exchange yields one result per focused pair. |
| ExoticBot.Connect | components/arbitragebot.tsx:480-499 | An exchange not yet connected becomes "connected" and joins the set. An exchange already connected is left alone. No other exchange's membership changes. |
| ExoticBot.ScanFailed | components/arbitragebot.tsx:519-528 | A failed scan marks the exchange "error" and removes it from the set. |
| ExoticBot.ScanFailureIsLocal | components/arbitragebot.tsx:519-528 | A failed scan removes only its own exchange. Every other exchange keeps its membership and status. |
| ExoticBot.ConnectThenFailLeavesOthers | components/arbitragebot.tsx:480-528 | Connecting then failing leaves the connected set as it was, minus the exchange. |
| ExoticBot.AllExchangeResults | components/arbitragebot.tsx:478-534 | One result list per enabled exchange. |
| ExoticBot.ScanForOpportunities | components/arbitragebot.tsx:472-594 | A stopped bot changes nothing. A running scan's dashboard is `AfterScan` of the gathered results, with a cap of 200 and top lists of 8 and 8. Every exchange whose scan failed has a status. The connection state is `ConnectionsAfter` the enabled exchanges' turns. An exchange that is not enabled keeps its membership and status. With no exchange enabled twice, each enabled one ends as `ScanOutcome` says. |
| ExoticBot.ConnectionsAfterHasStatus | components/arbitragebot.tsx:480-528 | An enabled exchange whose scan failed, or that had to be connected, has a status after the scan. |
| ExoticBot.ConnectionsAfterOutside | components/arbitragebot.tsx:480-528 | An exchange that is not enabled keeps its membership and status through the whole scan. |
| ExoticBot.ConnectionsAfterOutcome | components/arbitragebot.tsx:480-528 | With no exchange enabled twice, a failed exchange is "error" and out of the set. One not yet connected is "connected" and in the set. One already connected keeps its membership and status. |
| Health.Classify | pages/api/health.ts:56-65 | Healthy iff `response.ok` (200-299). Degraded iff the status is in 400-499. Down iff neither, which includes a thrown error. |
| Health.ResultsOf | pages/api/health.ts:39-68 | One entry per API, in order, holding the API's name and its classified outcome. |
| Health.CheckExternalApis | pages/api/health.ts:31-69 | The checking loop yields exactly `ResultsOf` of the four monitored APIs. |
| Health.CountHealthy | pages/api/health.ts:111-113 | The healthy count is at most the number of APIs. |
| Health.HealthyCountIsOkCount | pages/api/health.ts:56-112 | The number of healthy APIs equals the number of successful responses. |
| Health.OverallStatus | pages/api/health.ts:115-123 | Unhealthy iff memory > 90%. Healthy iff memory ≤ 75% and there are no results or at least 80% are healthy. |
| Health.HalfTestIsSubsumed | pages/api/health.ts:119-123 | The decision equals the one without the test against one half. |
| Health.HighMemoryIsDegraded | pages/api/health.ts:119-120 | Memory in (75%, 90%] is degraded, whatever the APIs report. |
| Health.FewHealthyApisIsDegraded | pages/api/health.ts:119-123 | At memory ≤ 75%, fewer than 80% healthy APIs is degraded. |
| Health.StatusCode | pages/api/health.ts:151-152 | The HTTP code is 503 iff the status is unhealthy; otherwise it is 200. |
| Health.RaceResults | pages/api/health.ts:103-108 | A timed-out check yields no results; a completed one yields the check's results. |
| Health.Handle | pages/api/health.ts:75-162 | A non-GET request gets 405, unhealthy, with no results. A GET gets the status decided from memory and the race results, the matching code, and `active_chains` = the number of result keys. |
| Health.ServiceUnavailableIffMemoryCritical | pages/api/health.ts:117-152 | A GET answers 503 iff memory is above 90%, and 200 otherwise. |
| Health.TimeoutReadsHealthy | pages/api/health.ts:103-123 | A timed-out check at memory ≤ 75% is healthy with code 200 and zero active chains. |
| Health.CompletedCheckHealthyIff | pages/api/health.ts:110-146 | A completed check reports four chains. At memory ≤ 75% it is healthy iff all four requests succeeded. |

## Left out

- **React lifecycle.** Rendering, `useEffect`/`setInterval` and the `toggleBot` reset are interface wiring. State updaters are modelled as pure functions.
- **Network and timing.** Network requests, the endpoint-fallback chains and the parsing of DexScreener, Raydium and CoinGecko responses are I/O. The model receives their outcome as an input quote, a `PriceSource`, a test result or an HTTP outcome. The same goes for the connection and rate-limit delays, `AbortController` and the race timers.
- **Request URLs.** The price-fetch request URLs passed to `makeAPICall` are not modelled. Only the connection test call is counted, and `RecordApiCall`/`CountsMatchRequests` state the counter's behaviour for any sequence of URLs.
- **Concurrency.** The exchanges of one scan run concurrently with `Promise.all`, so their status updates interleave. The model applies them in the order of the enabled exchanges. The gathered results are in that order in both.
- **Clocks and randomness.** Ids, timestamps and `Date.now()` are left out. Every `Math.random()` draw is an input in [0, 1); the exotic bot's delay draws are left out with the delays.
- **Floating point.** NaN, Infinity and `isFinite` are not modelled: numbers are reals, and each finite guard takes its finite branch. Rounding and formatting (`Math.round`, `toFixed`) are left out, so the health response's memory figures are not modelled.
- **Route string.** The route is modelled as the token sequence it prints, not as the arrow-joined string.
- **Export.** `exportData` is a DOM download.
- **Health internals.** The process statistics in the health endpoint are not modelled: the memory percentage is an input. The handler's `catch` branch is left out, because nothing inside the modelled `try` throws. Uptime, version and environment are constants of the process.
- **Rates.** Rates are required to be positive, because the evaluator divides by them without a check. There is no rejection path for bad rates because the code has none.
- **Real-API scan failure.** The per-exchange `catch` of the real-API scan, which would mark the exchange "error", is left out. Every per-pair promise catches its own error, and nothing else in the modelled scan body can throw, so that branch is unreachable.
- **Exotic scan failure.** Whether an exotic exchange's scan throws is an input. The per-pair `try/catch` already catches every error the modelled code could raise.
- **Unreachable defaults.** The chain defaults (`|| 0.5` gas, `|| 1.0` gas, the default inefficiency and the 0.5 multiplier) are unreachable, because every configured chain has an entry.
- RealApiBot.ScanForOpportunities and ExoticBot.ScanForOpportunities: each exchange's final membership and status are stated only when no exchange is enabled twice. With a repeated exchange, a later turn can undo an earlier one, and the snapshot taken at render time decides which.

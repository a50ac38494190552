/** The real-API dashboard of components/ArbitrageBot.tsx: two exchanges
    (Trader Joe on Avalanche, Raydium on Solana), quotes from public price
    APIs with generated fallbacks and a little market noise, triangles
    evaluated in batches of three, a history of 120 results and top lists of
    8 pairs and 2 exchanges. What the network answers, and every
    `Math.random()` draw, is an input here. */
module RealApiBot {
  import opened Wrappers
  import opened Triangular
  import opened PairCombos
  import opened ScanAnalytics

  // ---------------------------------------------------------------------------
  // Configuration

  datatype Chain = Avalanche | Solana

  datatype ExchangeConfig = ExchangeConfig(name: string, chain: Chain, apiUrl: string, fee: real, minLiquidity: real)

  /** `exchangeConfigs[exchange]`, with the API base URLs at their defaults. */
  function ConfigOf(exchange: string): (c: Option<ExchangeConfig>)
    ensures c.Some? <==> exchange in {"traderjoe", "raydium"}
    ensures c.Some? ==> 0.0 < c.value.fee < 1.0
  {
    if exchange == "traderjoe" then Some(ExchangeConfig("Avalanche DEXs", Avalanche, "https://api.llama.fi", 0.3, 2500.0))
    else if exchange == "raydium" then Some(ExchangeConfig("Raydium", Solana, "https://api-v3.raydium.io", 0.25, 2000.0))
    else None
  }

  /** History cap 120, top 8 pairs, top 2 exchanges. */
  const DashboardCaps: Caps := Caps(120, 8, 2)

  /** The sanity ceiling on the absolute net profit percentage. */
  const SanityCeiling: real := 150.0

  /** The default viability thresholds when no environment value is set. */
  const DefaultThresholds: Thresholds := Thresholds(0.15, 2500.0)

  const BatchSize: nat := 3

  predicate IsDraw(r: real) { 0.0 <= r < 1.0 }

  // ---------------------------------------------------------------------------
  // The call counter of `makeAPICall`

  /** The count shown for a URL: `prev[url] || 0`. */
  function CallCount(counts: map<string, nat>, url: string): nat
  {
    if url in counts then counts[url] else 0
  }

  /** The counter update made before every request: only that URL's count
      changes, and by exactly one. */
  function RecordApiCall(counts: map<string, nat>, url: string): (r: map<string, nat>)
    ensures r.Keys == counts.Keys + {url}
    ensures CallCount(r, url) == CallCount(counts, url) + 1
    ensures forall u :: u != url ==> CallCount(r, u) == CallCount(counts, u)
  {
    counts[url := CallCount(counts, url) + 1]
  }

  /** The counter after a sequence of requests, in order. */
  function RecordApiCalls(counts: map<string, nat>, urls: seq<string>): map<string, nat>
  {
    if |urls| == 0 then counts else RecordApiCall(RecordApiCalls(counts, urls[..|urls| - 1]), urls[|urls| - 1])
  }

  function Requests(urls: seq<string>, url: string): nat
  {
    if |urls| == 0 then 0 else Requests(urls[..|urls| - 1], url) + (if urls[|urls| - 1] == url then 1 else 0)
  }

  /** Every URL's count grows by exactly the number of requests made to it. */
  lemma {:induction false} CountsMatchRequests(counts: map<string, nat>, urls: seq<string>, url: string)
    ensures CallCount(RecordApiCalls(counts, urls), url) == CallCount(counts, url) + Requests(urls, url)
  {
    if |urls| > 0 {
      CountsMatchRequests(counts, urls[..|urls| - 1], url);
    }
  }

  // ---------------------------------------------------------------------------
  // Quotes

  /** The reference prices of `generateFallbackPrice`, 1 for any other token. */
  function FallbackBasePrice(token: string): (p: real)
    ensures p > 0.0
  {
    if token == "AVAX" || token == "WAVAX" then 35.0
    else if token == "SOL" then 120.0
    else if token == "JOE" then 0.5
    else if token == "RAY" then 2.5
    else 1.0
  }

  /** The generated rate for a pair: the first token's reference price in
      units of the second's. */
  function FallbackRate(tokenA: string, tokenB: string): (r: real)
    ensures r > 0.0
  {
    PositiveRatio(FallbackBasePrice(tokenA), FallbackBasePrice(tokenB));
    FallbackBasePrice(tokenA) / FallbackBasePrice(tokenB)
  }

  lemma PositiveRatio(p: real, q: real)
    requires p > 0.0 && q > 0.0
    ensures p / q > 0.0 && p / q * q == p
  {
  }

  /** A generated quote: the generated rate, with fixed liquidity (3000 under
      the "raydium" label, 4000 otherwise) and volume. */
  function GenerateFallbackPrice(tokenA: string, tokenB: string, exchange: string): (q: TokenPrice)
    ensures q.price == FallbackRate(tokenA, tokenB) && q.price > 0.0
    ensures q.liquidity == Some(if exchange == "raydium" then 3000.0 else 4000.0)
    ensures q.volume24h == Some(15000.0)
    ensures q.symbol == tokenA + "/" + tokenB && q.source == exchange + "-generated"
  {
    TokenPrice(tokenA + "/" + tokenB, FallbackRate(tokenA, tokenB),
               Some(if exchange == "raydium" then 3000.0 else 4000.0), Some(15000.0),
               exchange + "-generated")
  }

  /** Dividing by a middle price and then multiplying back through it. */
  lemma RatioProduct(p: real, q: real, r: real)
    requires p > 0.0 && q > 0.0 && r > 0.0
    ensures (p / q) * (q / r) == p / r
  {
    var a, b := p / q, q / r;
    assert a * q == p;
    assert b * r == q;
    assert (a * b) * r == a * (b * r);
    assert (a * b) * r == p;
  }

  /** The generated rates of a pair and of its reverse multiply to 1. */
  lemma FallbackRatesReciprocal(a: string, b: string)
    ensures FallbackRate(a, b) * FallbackRate(b, a) == 1.0
  {
    var pa, pb := FallbackBasePrice(a), FallbackBasePrice(b);
    RatioChain(pa, pb, pa, FallbackRate(a, b), FallbackRate(b, a), pa / pa);
  }

  /** Going through a third token gives the direct generated rate. */
  lemma FallbackRatesChain(a: string, b: string, c: string)
    ensures FallbackRate(a, c) == FallbackRate(a, b) * FallbackRate(b, c)
  {
    RatioChain(FallbackBasePrice(a), FallbackBasePrice(b), FallbackBasePrice(c),
               FallbackRate(a, b), FallbackRate(b, c), FallbackRate(a, c));
  }

  lemma RatioChain(pa: real, pb: real, pc: real, x: real, y: real, z: real)
    requires pa > 0.0 && pb > 0.0 && pc > 0.0
    requires x == pa / pb && y == pb / pc && z == pa / pc
    ensures z == x * y
  {
    RatioProduct(pa, pb, pc);
  }

  /** What the chain of price endpoints produced for one pair: a quote parsed
      from a price API, the CoinGecko fallback's number (absent when the
      response lacks it), or nothing usable, which leads to a generated quote. */
  datatype PriceSource = ApiQuote(quote: TokenPrice) | CoinGeckoQuote(value: Option<real>) | Unavailable

  predicate SourcePositive(src: PriceSource)
  {
    match src
    case ApiQuote(q) => q.price > 0.0
    case CoinGeckoQuote(v) => v.Some? ==> v.value >= 0.0
    case Unavailable => true
  }

  /** The label the fetchers hand to the fallback: "avalanche" for Trader
      Joe, "raydium" for Raydium. */
  function FallbackLabel(exchange: string): string
  {
    if exchange == "traderjoe" then "avalanche" else "raydium"
  }

  /** The quote `fetchTraderJoePrice` or `fetchRaydiumPrice` returns: never
      null, since every failure ends in a fallback. */
  function ResolveQuote(exchange: string, tokenA: string, tokenB: string, src: PriceSource): (q: TokenPrice)
    requires SourcePositive(src)
    ensures q.price > 0.0
    ensures src.ApiQuote? ==> q == src.quote
    ensures src.CoinGeckoQuote? ==> q.liquidity == Some(2000.0) && q.volume24h == Some(5000.0)
    ensures src.CoinGeckoQuote? ==> q.symbol == tokenA + "/" + tokenB && q.source == FallbackLabel(exchange) + "-fallback"
    ensures src.CoinGeckoQuote? && src.value.Some? && src.value.value != 0.0 ==> q.price == src.value.value
    ensures src.CoinGeckoQuote? && (src.value.None? || src.value.value == 0.0) ==> q.price == 1.0
    ensures src.Unavailable? ==> q == GenerateFallbackPrice(tokenA, tokenB, FallbackLabel(exchange))
  {
    match src
    case ApiQuote(quote) => quote
    case CoinGeckoQuote(v) =>
      var price := if v.Some? && v.value != 0.0 then v.value else 1.0;
      TokenPrice(tokenA + "/" + tokenB, price, Some(2000.0), Some(5000.0), FallbackLabel(exchange) + "-fallback")
    case Unavailable => GenerateFallbackPrice(tokenA, tokenB, FallbackLabel(exchange))
  }

  /** `price * (1 + (r - 0.5) * 0.02)` for a non-zero price: within 1% of it. */
  function ApplyMarketNoise(q: TokenPrice, r: real): (n: TokenPrice)
    requires IsDraw(r)
    ensures n == q.(price := n.price)
    ensures q.price == 0.0 ==> n == q
    ensures q.price > 0.0 ==> 0.99 * q.price <= n.price < 1.01 * q.price
  {
    if q.price != 0.0 then q.(price := q.price * (1.0 + (r - 0.5) * 0.02)) else q
  }

  /** `fetchExchangePrice`: nothing for an exchange without a configuration,
      otherwise the resolved quote with market noise. */
  function FetchExchangePrice(exchange: string, tokenA: string, tokenB: string, src: PriceSource, r: real): (q: Option<TokenPrice>)
    requires IsDraw(r) && SourcePositive(src)
    ensures q.Some? <==> ConfigOf(exchange).Some?
    ensures q.Some? ==> q.value.price > 0.0
    ensures q.Some? ==> var base := ResolveQuote(exchange, tokenA, tokenB, src);
                        && q.value == base.(price := q.value.price)
                        && 0.99 * base.price <= q.value.price < 1.01 * base.price
  {
    if ConfigOf(exchange).None? then None
    else Some(ApplyMarketNoise(ResolveQuote(exchange, tokenA, tokenB, src), r))
  }

  // ---------------------------------------------------------------------------
  // Evaluation

  /** `gasCosts[config.chain]`: the chain's gas for one draw. */
  function ChainGas(chain: Chain, r: real): (g: real)
    requires IsDraw(r)
    ensures chain == Avalanche ==> 0.2 <= g < 1.0
    ensures chain == Solana ==> 0.002 <= g < 0.01
  {
    match chain
    case Avalanche => r * 0.8 + 0.2
    case Solana => r * 0.008 + 0.002
  }

  /** Three legs of gas; always positive, so the `|| 0.5` default never applies. */
  function TotalGasCost(chain: Chain, r: real): (g: real)
    requires IsDraw(r)
    ensures chain == Avalanche ==> 0.6 <= g < 3.0
    ensures chain == Solana ==> 0.006 <= g < 0.03
  {
    ChainGas(chain, r) * 3.0
  }

  /** Everything one triangle needs from outside: what the endpoints returned
      for the three pairs, the three noise draws and the gas draw. */
  datatype TriangleInputs = TriangleInputs(
    src13: PriceSource, src23: PriceSource, src12: PriceSource,
    noise13: real, noise23: real, noise12: real, gasDraw: real)

  predicate WellFormed(t: TriangleInputs)
  {
    && SourcePositive(t.src13) && SourcePositive(t.src23) && SourcePositive(t.src12)
    && IsDraw(t.noise13) && IsDraw(t.noise23) && IsDraw(t.noise12) && IsDraw(t.gasDraw)
  }

  /** `calculateArbitrage(pair1, pair2, pair3, exchange)`. */
  function CalculateArbitrage(pair1: string, pair2: string, pair3: string, exchange: string,
                              t: TriangleInputs, th: Thresholds): (r: Option<Opportunity>)
    requires WellFormed(t)
    ensures r.Some? <==> ConfigOf(exchange).Some?
    ensures r.Some? ==>
      var c := ConfigOf(exchange).value;
      && r.value.exchange == exchange
      && r.value.pairs == PairsLabel(pair1, pair2, pair3)
      && r.value.fees == 3.0 * c.fee
      && r.value.gasEstimate == TotalGasCost(c.chain, t.gasDraw)
      && r.value.priceData.token1Price == FetchExchangePrice(exchange, pair1, pair3, t.src13, t.noise13).value.price
      && r.value.priceData.token2Price == FetchExchangePrice(exchange, pair2, pair3, t.src23, t.noise23).value.price
      && r.value.priceData.crossRate == FetchExchangePrice(exchange, pair1, pair2, t.src12, t.noise12).value.price
      && EvaluatedFromPriceData(r.value, pair1, pair2, pair3, c.fee)
      && r.value.liquidity.pair1 == LiquidityOrZero(FetchExchangePrice(exchange, pair1, pair3, t.src13, t.noise13).value)
      && r.value.liquidity.pair2 == LiquidityOrZero(FetchExchangePrice(exchange, pair2, pair3, t.src23, t.noise23).value)
      && r.value.liquidity.pair3 == LiquidityOrZero(FetchExchangePrice(exchange, pair1, pair2, t.src12, t.noise12).value)
      && (r.value.viable <==> (r.value.profit > th.minProfitThreshold
                               && Min3(r.value.liquidity.pair1, r.value.liquidity.pair2, r.value.liquidity.pair3) > th.minLiquidity
                               && Abs(r.value.profit) < SanityCeiling))
  {
    var config := ConfigOf(exchange);
    if config.None? then None
    else
      var q13 := FetchExchangePrice(exchange, pair1, pair3, t.src13, t.noise13);
      var q23 := FetchExchangePrice(exchange, pair2, pair3, t.src23, t.noise23);
      var q12 := FetchExchangePrice(exchange, pair1, pair2, t.src12, t.noise12);
      CalculateOpportunity(exchange, pair1, pair2, pair3, config.value.fee,
                           TotalGasCost(config.value.chain, t.gasDraw), SanityCeiling, th, q13, q23, q12)
  }

  /** The net profit is the better cycle's less at most 0.3 percentage
      points of gas on Avalanche and 0.003 on Solana, and never more than it. */
  lemma GasBoundsNetProfit(pair1: string, pair2: string, pair3: string, exchange: string,
                           t: TriangleInputs, th: Thresholds)
    requires WellFormed(t) && ConfigOf(exchange).Some?
    ensures var o := CalculateArbitrage(pair1, pair2, pair3, exchange, t, th).value;
            var p13, p23, p12 := o.priceData.token1Price, o.priceData.token2Price, o.priceData.crossRate;
            var fee := ConfigOf(exchange).value.fee;
            && p13 > 0.0 && p23 > 0.0 && p12 > 0.0
            && var best := Max(ProfitPercent(Route1Final(p13, p23, p12, fee)), ProfitPercent(Route2Final(p13, p23, p12, fee)));
               && o.profit <= best
               && (ConfigOf(exchange).value.chain == Avalanche ==> best - 0.3 < o.profit)
               && (ConfigOf(exchange).value.chain == Solana ==> best - 0.003 < o.profit)
  {
    var c := ConfigOf(exchange).value;
    var q13 := FetchExchangePrice(exchange, pair1, pair3, t.src13, t.noise13);
    var q23 := FetchExchangePrice(exchange, pair2, pair3, t.src23, t.noise23);
    var q12 := FetchExchangePrice(exchange, pair1, pair2, t.src12, t.noise12);
    var gas := TotalGasCost(c.chain, t.gasDraw);
    var e := Evaluate(q13.value.price, q23.value.price, q12.value.price,
                      LiquidityOrZero(q13.value), LiquidityOrZero(q23.value), LiquidityOrZero(q12.value),
                      c.fee, gas, SanityCeiling, th);
    assert CalculateArbitrage(pair1, pair2, pair3, exchange, t, th).value.profit == e.netProfitPercent;
  }

  /** When no endpoint answers for any of the three pairs, every quote is
      generated (`ResolveQuote` of `Unavailable`), and generated quotes are
      consistent, so before the noise neither cycle can gain at a fee between
      0 and 100 percent: any gain on generated quotes comes from the noise. */
  lemma GeneratedQuotesHoldNoArbitrage(pair1: string, pair2: string, pair3: string, fee: real)
    requires 0.0 <= fee <= 100.0
    ensures var p13 := FallbackRate(pair1, pair3);
            var p23 := FallbackRate(pair2, pair3);
            var p12 := FallbackRate(pair1, pair2);
            && ProfitPercent(Route1Final(p13, p23, p12, fee)) <= 0.0
            && ProfitPercent(Route2Final(p13, p23, p12, fee)) <= 0.0
  {
    FallbackRatesChain(pair1, pair2, pair3);
    ConsistentRatesNeverGain(FallbackRate(pair1, pair3), FallbackRate(pair2, pair3), FallbackRate(pair1, pair2), fee);
  }

  // ---------------------------------------------------------------------------
  // Scanning one exchange

  /** One focused pair string evaluated on an exchange. */
  function EvaluateCombo(exchange: string, combo: string, t: TriangleInputs, th: Thresholds): Option<Opportunity>
    requires WellFormed(t)
  {
    var (pair1, pair2, pair3) := ComboTokens(combo);
    CalculateArbitrage(pair1, pair2, pair3, exchange, t, th)
  }

  predicate InputsFor(focusedPairs: seq<string>, inputs: seq<TriangleInputs>)
  {
    |inputs| == |focusedPairs| && forall i :: 0 <= i < |inputs| ==> WellFormed(inputs[i])
  }

  /** The result for every focused pair, in order. */
  function PairResults(exchange: string, focusedPairs: seq<string>, inputs: seq<TriangleInputs>, th: Thresholds): (rs: seq<Option<Opportunity>>)
    requires InputsFor(focusedPairs, inputs)
    ensures |rs| == |focusedPairs|
  {
    seq(|focusedPairs|, i requires 0 <= i < |focusedPairs| => EvaluateCombo(exchange, focusedPairs[i], inputs[i], th))
  }

  /** Evaluating a slice of the pairs gives that slice of the results. */
  lemma PairResultsSlice(exchange: string, focusedPairs: seq<string>, inputs: seq<TriangleInputs>, th: Thresholds,
                         i: nat, end: nat)
    requires InputsFor(focusedPairs, inputs) && i <= end <= |focusedPairs|
    ensures InputsFor(focusedPairs[i..end], inputs[i..end])
    ensures PairResults(exchange, focusedPairs[i..end], inputs[i..end], th)
            == PairResults(exchange, focusedPairs, inputs, th)[i..end]
  {
    var batch, batchInputs := focusedPairs[i..end], inputs[i..end];
    assert InputsFor(batch, batchInputs);
    var rs := PairResults(exchange, focusedPairs, inputs, th);
    forall j | 0 <= j < end - i
      ensures batch[j] == focusedPairs[i + j] && batchInputs[j] == inputs[i + j]
    {
    }
  }

  /** `focusedPairs.slice(i, i + size)` for i = 0, size, 2 * size, ... */
  function Batches<T>(s: seq<T>, size: nat): seq<seq<T>>
    requires size > 0
    decreases |s|
  {
    if |s| == 0 then [] else [s[..MinNat(size, |s|)]] + Batches(s[MinNat(size, |s|)..], size)
  }

  function Concat<T>(ss: seq<seq<T>>): seq<T>
  {
    if |ss| == 0 then [] else ss[0] + Concat(ss[1..])
  }

  /** Together, in order, the batches are the list, and each holds between
      1 and `size` entries. */
  lemma BatchesPartition<T>(s: seq<T>, size: nat)
    requires size > 0
    ensures Concat(Batches(s, size)) == s
    ensures forall b :: b in Batches(s, size) ==> 1 <= |b| <= size
  {
    BatchesConcat(s, size);
    BatchesSizes(s, size);
  }

  lemma {:induction false} BatchesConcat<T>(s: seq<T>, size: nat)
    requires size > 0
    ensures Concat(Batches(s, size)) == s
    decreases |s|
  {
    if |s| > 0 {
      var m := MinNat(size, |s|);
      var rest := s[m..];
      var bs := Batches(s, size);
      BatchesUnfold(s, size);
      BatchesConcat(rest, size);
      assert bs[1..] == Batches(rest, size);
      assert Concat(bs) == s[..m] + Concat(Batches(rest, size));
      assert s == s[..m] + rest;
    }
  }

  lemma {:induction false} BatchesSizes<T>(s: seq<T>, size: nat)
    requires size > 0
    ensures forall i :: 0 <= i < |Batches(s, size)| ==> 1 <= |Batches(s, size)[i]| <= size
    decreases |s|
  {
    if |s| > 0 {
      var m := MinNat(size, |s|);
      BatchesUnfold(s, size);
      BatchesSizes(s[m..], size);
    }
  }

  /** Batch k is the slice the loop takes at i = k * size. */
  lemma BatchAt<T>(s: seq<T>, size: nat, k: nat)
    requires size > 0 && k < |Batches(s, size)|
    ensures k * size < |s|
    ensures Batches(s, size)[k] == s[k * size..MinNat(k * size + size, |s|)]
  {
    BatchAtOffset(s, size, k);
    OffsetIsProduct(size, k);
  }

  /** `i` after k steps of `i += size`. */
  function Offset(size: nat, k: nat): nat
  {
    if k == 0 then 0 else Offset(size, k - 1) + size
  }

  lemma {:induction false} OffsetIsProduct(size: nat, k: nat)
    ensures Offset(size, k) == k * size
  {
    if k > 0 {
      OffsetIsProduct(size, k - 1);
      assert k * size == (k - 1) * size + size;
    }
  }

  lemma {:induction false} BatchAtOffset<T>(s: seq<T>, size: nat, k: nat)
    requires size > 0 && k < |Batches(s, size)|
    ensures Offset(size, k) < |s|
    ensures Batches(s, size)[k] == s[Offset(size, k)..MinNat(Offset(size, k) + size, |s|)]
    decreases k
  {
    if k > 0 {
      BatchesStep(s, size, k);
      var rest := s[size..];
      BatchAtOffset(rest, size, k - 1);
      var j := Offset(size, k - 1);
      var e := MinNat(j + size, |rest|);
      SliceOfSuffix(s, size, j, e);
      assert Offset(size, k) == size + j;
      assert MinNat(Offset(size, k) + size, |s|) == size + e;
    }
  }

  /** Past the first batch, the batches are those of the rest of the list. */
  lemma BatchesStep<T>(s: seq<T>, size: nat, k: nat)
    requires size > 0 && 0 < k < |Batches(s, size)|
    ensures size < |s|
    ensures k - 1 < |Batches(s[size..], size)|
    ensures Batches(s, size)[k] == Batches(s[size..], size)[k - 1]
  {
    var bs := Batches(s, size);
    assert |s| > 0;
    assert bs == [s[..size]] + Batches(s[size..], size);
  }

  /** The first batch, and the batches after it. */
  lemma BatchesUnfold<T>(s: seq<T>, size: nat)
    requires size > 0 && |s| > 0
    ensures Batches(s, size)[0] == s[..MinNat(size, |s|)]
    ensures |Batches(s, size)| == 1 + |Batches(s[MinNat(size, |s|)..], size)|
    ensures forall i :: 1 <= i < |Batches(s, size)| ==> Batches(s, size)[i] == Batches(s[MinNat(size, |s|)..], size)[i - 1]
  {
    var m := MinNat(size, |s|);
    var rest := Batches(s[m..], size);
    assert Batches(s, size) == [s[..m]] + rest;
  }

  /** A batch starts at every multiple of `size` below the length. */
  lemma {:induction false} BatchIndexInRange<T>(s: seq<T>, size: nat, k: nat)
    requires size > 0 && k * size < |s|
    ensures k < |Batches(s, size)|
  {
    BatchesUnfold(s, size);
    if k > 0 {
      assert size <= k * size;
      assert (k - 1) * size == k * size - size;
      BatchIndexInRange(s[MinNat(size, |s|)..], size, k - 1);
    }
  }

  lemma SliceOfSuffix<T>(s: seq<T>, d: nat, a: nat, b: nat)
    requires a <= b && d + b <= |s|
    ensures s[d..][a..b] == s[d + a..d + b]
  {
  }

  /** The batch loop of `scanForOpportunities` for one exchange: each batch of
      three pairs is evaluated, and the results that are present are pushed in
      order. Every focused pair is visited once, in order. */
  method ScanExchange(exchange: string, focusedPairs: seq<string>, inputs: seq<TriangleInputs>, th: Thresholds)
    returns (exchangeOpportunities: seq<Opportunity>)
    requires InputsFor(focusedPairs, inputs)
    ensures exchangeOpportunities == Somes(PairResults(exchange, focusedPairs, inputs, th))
  {
    ghost var results := PairResults(exchange, focusedPairs, inputs, th);
    var n := |focusedPairs|;
    exchangeOpportunities := [];
    var i := 0;
    ghost var k := 0;
    while i < n
      invariant 0 <= i == k * BatchSize
      invariant exchangeOpportunities == Somes(results[..MinNat(i, n)])
      decreases n - i
    {
      var end := MinNat(i + BatchSize, n);
      var batch := focusedPairs[i..end];
      BatchIndexInRange(focusedPairs, BatchSize, k);
      BatchAt(focusedPairs, BatchSize, k);
      assert batch == Batches(focusedPairs, BatchSize)[k];
      assert InputsFor(batch, inputs[i..end]);
      var batchResults := PairResults(exchange, batch, inputs[i..end], th);
      PairResultsSlice(exchange, focusedPairs, inputs, th, i, end);
      SomesAppend(results[..i], results[i..end]);
      AdjacentSlices(results, 0, i, end);
      exchangeOpportunities := PushPresent(exchangeOpportunities, batchResults);
      i := i + BatchSize;
      k := k + 1;
    }
    WholePrefix(results);
  }

  /** A configured exchange yields a result for every focused pair. */
  lemma ConfiguredExchangeEvaluatesEveryPair(exchange: string, focusedPairs: seq<string>,
                                              inputs: seq<TriangleInputs>, th: Thresholds)
    requires InputsFor(focusedPairs, inputs) && ConfigOf(exchange).Some?
    ensures |Somes(PairResults(exchange, focusedPairs, inputs, th))| == |focusedPairs|
  {
    var rs := PairResults(exchange, focusedPairs, inputs, th);
    AllPresent(rs);
  }

  // ---------------------------------------------------------------------------
  // Connecting and the whole scan

  /** The connection bookkeeping: status text per exchange, the set of
      connected exchanges, and the call counter. */
  datatype Connections = Connections(status: map<string, string>, connected: set<string>, apiCalls: map<string, nat>)

  function TestUrl(c: ExchangeConfig): string
  {
    match c.chain
    case Avalanche => c.apiUrl + "/summary"
    case Solana => c.apiUrl + "/pools/info/ids?ids="
  }

  /** What happens before an exchange is scanned: nothing when the render
      already saw it connected; otherwise a test request (counted) whose
      success connects the exchange and whose failure marks it "error" and
      skips it. The flag says whether the exchange is scanned. */
  function Connect(s: Connections, wasConnected: bool, exchange: string, testSucceeds: bool): (r: (Connections, bool))
    ensures wasConnected ==> r == (s, true)
    ensures !wasConnected ==>
      && r.0.connected == (if r.1 then s.connected + {exchange} else s.connected)
      && r.0.status == s.status[exchange := if r.1 then "connected" else "error"]
      && (r.1 <==> ConfigOf(exchange).Some? && testSucceeds)
      && (ConfigOf(exchange).Some? ==> r.0.apiCalls == RecordApiCall(s.apiCalls, TestUrl(ConfigOf(exchange).value)))
      && (ConfigOf(exchange).None? ==> r.0.apiCalls == s.apiCalls)
  {
    if wasConnected then (s, true)
    else
      var connecting := s.status[exchange := "connecting"];
      match ConfigOf(exchange)
      case None => (s.(status := connecting[exchange := "error"]), false)
      case Some(c) =>
        var calls := RecordApiCall(s.apiCalls, TestUrl(c));
        if testSucceeds then
          (Connections(connecting[exchange := "connected"], s.connected + {exchange}, calls), true)
        else
          (Connections(connecting[exchange := "error"], s.connected, calls), false)
  }

  /** Connecting touches only its own exchange's status and membership. */
  lemma ConnectIsLocal(s: Connections, wasConnected: bool, exchange: string, testSucceeds: bool, other: string)
    requires other != exchange
    ensures var r := Connect(s, wasConnected, exchange, testSucceeds).0;
            && (other in r.status <==> other in s.status)
            && (other in s.status ==> r.status[other] == s.status[other])
            && (other in r.connected <==> other in s.connected)
  {
  }

  /** The connection state after the turns of `enabled`, in order, starting
      from `s`; the render's snapshot of the connected set is `s.connected`. */
  function ConnectionsAfter(s: Connections, enabled: seq<string>, tests: seq<bool>): Connections
    requires |tests| == |enabled|
  {
    if |enabled| == 0 then s
    else
      var n := |enabled| - 1;
      Connect(ConnectionsAfter(s, enabled[..n], tests[..n]), enabled[n] in s.connected, enabled[n], tests[n]).0
  }

  /** The test requests of a scan, in order: one per configured exchange
      that the render did not see connected. */
  function TestUrls(connected: set<string>, enabled: seq<string>): seq<string>
  {
    if |enabled| == 0 then []
    else
      var n := |enabled| - 1;
      var x := enabled[n];
      TestUrls(connected, enabled[..n]) + (if x !in connected && ConfigOf(x).Some? then [TestUrl(ConfigOf(x).value)] else [])
  }

  /** Recording a sequence of calls and then one more. */
  lemma RecordApiCallsSnoc(counts: map<string, nat>, urls: seq<string>, extra: seq<string>)
    requires |extra| <= 1
    ensures RecordApiCalls(counts, urls + extra)
            == if |extra| == 0 then RecordApiCalls(counts, urls) else RecordApiCall(RecordApiCalls(counts, urls), extra[0])
  {
    if |extra| == 0 {
      assert urls + extra == urls;
    } else {
      assert (urls + extra)[..|urls|] == urls;
    }
  }

  /** The scan's counter is the old counter with every test request recorded. */
  lemma {:induction false} ConnectionsAfterCalls(s: Connections, enabled: seq<string>, tests: seq<bool>)
    requires |tests| == |enabled|
    ensures ConnectionsAfter(s, enabled, tests).apiCalls == RecordApiCalls(s.apiCalls, TestUrls(s.connected, enabled))
  {
    if |enabled| > 0 {
      var n := |enabled| - 1;
      var x := enabled[n];
      ConnectionsAfterCalls(s, enabled[..n], tests[..n]);
      RecordApiCallsSnoc(s.apiCalls, TestUrls(s.connected, enabled[..n]),
                         if x !in s.connected && ConfigOf(x).Some? then [TestUrl(ConfigOf(x).value)] else []);
    }
  }

  /** `x` has the same membership and the same status in `r` as in `s`. */
  predicate Untouched(r: Connections, s: Connections, x: string)
  {
    && (x in r.connected <==> x in s.connected)
    && (x in r.status <==> x in s.status)
    && (x in r.status && x in s.status ==> r.status[x] == s.status[x])
  }

  /** Where one enabled exchange ends up: as it was when the render saw it
      connected; otherwise "connected" and in the set when it is configured
      and its test request succeeds, and "error" and out of the set when not. */
  predicate ScanOutcome(r: Connections, s: Connections, x: string, testSucceeds: bool)
  {
    if x in s.connected then Untouched(r, s, x)
    else if ConfigOf(x).Some? && testSucceeds then x in r.connected && x in r.status && r.status[x] == "connected"
    else x !in r.connected && x in r.status && r.status[x] == "error"
  }

  /** An exchange that is not enabled keeps its membership and status. */
  lemma {:induction false} ConnectionsAfterOutside(s: Connections, enabled: seq<string>, tests: seq<bool>, x: string)
    requires |tests| == |enabled| && x !in enabled
    ensures Untouched(ConnectionsAfter(s, enabled, tests), s, x)
  {
    if |enabled| > 0 {
      var n := |enabled| - 1;
      assert x !in enabled[..n] by {
        forall k | 0 <= k < n ensures enabled[..n][k] != x { assert enabled[..n][k] == enabled[k]; }
      }
      ConnectionsAfterOutside(s, enabled[..n], tests[..n], x);
      ConnectIsLocal(ConnectionsAfter(s, enabled[..n], tests[..n]), enabled[n] in s.connected, enabled[n], tests[n], x);
    }
  }

  /** With every exchange enabled once, each ends up as its own turn left it. */
  lemma {:induction false} ConnectionsAfterOutcome(s: Connections, enabled: seq<string>, tests: seq<bool>, e: nat)
    requires |tests| == |enabled| && NoRepeats(enabled) && e < |enabled|
    ensures ScanOutcome(ConnectionsAfter(s, enabled, tests), s, enabled[e], tests[e])
  {
    var n := |enabled| - 1;
    var before := ConnectionsAfter(s, enabled[..n], tests[..n]);
    if e == n {
      assert enabled[n] !in enabled[..n] by {
        forall k | 0 <= k < n ensures enabled[..n][k] != enabled[n] { assert enabled[..n][k] == enabled[k]; }
      }
      ConnectionsAfterOutside(s, enabled[..n], tests[..n], enabled[n]);
    } else {
      assert NoRepeats(enabled[..n]) by {
        forall i, j | 0 <= i < j < n ensures enabled[..n][i] != enabled[..n][j] {
          assert enabled[..n][i] == enabled[i] && enabled[..n][j] == enabled[j];
        }
      }
      assert enabled[..n][e] == enabled[e] && tests[..n][e] == tests[e];
      ConnectionsAfterOutcome(s, enabled[..n], tests[..n], e);
      ConnectIsLocal(before, enabled[n] in s.connected, enabled[n], tests[n], enabled[e]);
    }
  }

  /** What one exchange contributes to a scan. */
  function ExchangeResults(exchange: string, wasConnected: bool, testSucceeds: bool,
                           focusedPairs: seq<string>, inputs: seq<TriangleInputs>, th: Thresholds): seq<Opportunity>
    requires InputsFor(focusedPairs, inputs)
  {
    if wasConnected || (ConfigOf(exchange).Some? && testSucceeds)
    then Somes(PairResults(exchange, focusedPairs, inputs, th))
    else []
  }

  /** Inputs of a whole scan: per enabled exchange, whether its test request
      succeeds and the inputs of every focused pair. */
  predicate ScanInputs(enabled: seq<string>, focusedPairs: seq<string>, tests: seq<bool>, inputs: seq<seq<TriangleInputs>>)
  {
    |tests| == |enabled| && |inputs| == |enabled| && forall e :: 0 <= e < |inputs| ==> InputsFor(focusedPairs, inputs[e])
  }

  /** Every enabled exchange's contribution, in the order of `enabledExchanges`. */
  function AllExchangeResults(connected: set<string>, enabled: seq<string>, focusedPairs: seq<string>,
                              tests: seq<bool>, inputs: seq<seq<TriangleInputs>>, th: Thresholds): (rs: seq<seq<Opportunity>>)
    requires ScanInputs(enabled, focusedPairs, tests, inputs)
    ensures |rs| == |enabled|
  {
    seq(|enabled|, e requires 0 <= e < |enabled| =>
      ExchangeResults(enabled[e], enabled[e] in connected, tests[e], focusedPairs, inputs[e], th))
  }

  /** `scanForOpportunities`: nothing when the bot is stopped; otherwise every
      enabled exchange is connected if need be and scanned, the results are
      gathered in exchange order, and the history and analytics are updated.
      Every exchange sees the connected set the scan started with. Exchanges
      only join the connected set, and only enabled ones do. */
  method ScanForOpportunities(isRunning: bool, d: Dashboard, conn: Connections,
                              enabled: seq<string>, focusedPairs: seq<string>,
                              tests: seq<bool>, inputs: seq<seq<TriangleInputs>>, th: Thresholds)
    returns (d': Dashboard, conn': Connections)
    requires ScanInputs(enabled, focusedPairs, tests, inputs)
    ensures !isRunning ==> d' == d && conn' == conn
    ensures isRunning ==>
      d' == AfterScan(d, Flatten(AllExchangeResults(conn.connected, enabled, focusedPairs, tests, inputs, th)), DashboardCaps)
    ensures conn.connected <= conn'.connected <= conn.connected + (set x | x in enabled)
    ensures isRunning ==> conn' == ConnectionsAfter(conn, enabled, tests)
    ensures isRunning ==> conn'.apiCalls == RecordApiCalls(conn.apiCalls, TestUrls(conn.connected, enabled))
    ensures isRunning ==> forall url :: CallCount(conn'.apiCalls, url)
                                        == CallCount(conn.apiCalls, url) + Requests(TestUrls(conn.connected, enabled), url)
    ensures isRunning ==> forall x :: x !in enabled ==> Untouched(conn', conn, x)
    ensures isRunning && NoRepeats(enabled) ==>
      forall e :: 0 <= e < |enabled| ==> ScanOutcome(conn', conn, enabled[e], tests[e])
  {
    d', conn' := d, conn;
    if !isRunning {
      return;
    }
    ghost var perExchange := AllExchangeResults(conn.connected, enabled, focusedPairs, tests, inputs, th);
    var results: seq<seq<Opportunity>> := [];
    var e := 0;
    while e < |enabled|
      invariant 0 <= e <= |enabled|
      invariant results == perExchange[..e]
      invariant conn.connected <= conn'.connected <= conn.connected + (set x | x in enabled)
      invariant conn' == ConnectionsAfter(conn, enabled[..e], tests[..e])
    {
      PrefixSnoc(enabled, e);
      PrefixSnoc(tests, e);
      assert enabled[..e + 1][..e] == enabled[..e] && tests[..e + 1][..e] == tests[..e];
      var exchange := enabled[e];
      var step := Connect(conn', exchange in conn.connected, exchange, tests[e]);
      conn' := step.0;
      var found: seq<Opportunity> := [];
      if step.1 {
        found := ScanExchange(exchange, focusedPairs, inputs[e], th);
      }
      assert found == perExchange[e];
      PrefixSnoc(perExchange, e);
      results := results + [found];
      e := e + 1;
    }
    assert results == perExchange by {
      assert perExchange[..e] == perExchange;
    }
    assert enabled[..e] == enabled && tests[..e] == tests;
    ConnectionsAfterCalls(conn, enabled, tests);
    forall url
      ensures CallCount(conn'.apiCalls, url) == CallCount(conn.apiCalls, url) + Requests(TestUrls(conn.connected, enabled), url)
    {
      CountsMatchRequests(conn.apiCalls, TestUrls(conn.connected, enabled), url);
    }
    forall x | x !in enabled
      ensures Untouched(conn', conn, x)
    {
      ConnectionsAfterOutside(conn, enabled, tests, x);
    }
    if NoRepeats(enabled) {
      forall e | 0 <= e < |enabled|
        ensures ScanOutcome(conn', conn, enabled[e], tests[e])
      {
        ConnectionsAfterOutcome(conn, enabled, tests, e);
      }
    }
    var newOpportunities := CollectNewOpportunities(results);
    d' := AfterScan(d, newOpportunities, DashboardCaps);
  }
}

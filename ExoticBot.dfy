/** The simulated exotic-chain dashboard of components/arbitragebot.tsx: ten
    exchanges on nine chains, quotes generated from a table of token price
    ranges with a chain-specific inefficiency, triangles evaluated one pair
    after another, a history of 200 results and top lists of 8 pairs and 8
    exchanges. Every `Math.random()` draw is an input here. */
module ExoticBot {
  import opened Wrappers
  import opened Triangular
  import opened PairCombos
  import opened ScanAnalytics
  import RealApiBot

  // ---------------------------------------------------------------------------
  // Configuration

  datatype Chain = Avalanche | Solana | Cosmos | Fantom | BSC | Arbitrum | Blast | Base | Optimism

  datatype ExchangeConfig = ExchangeConfig(name: string, fee: real, chain: Chain, minLiquidity: real)

  /** `exchangeConfigs[exchange]` for the ten exchanges. */
  function ConfigOf(exchange: string): (c: Option<ExchangeConfig>)
    ensures c.Some? <==> exchange in {"traderjoe", "raydium", "osmosis", "spookyswap", "pancakeswap",
                                      "gmx", "camelot", "thruster", "aerodrome", "velodrome"}
    ensures c.Some? ==> 0.0 < c.value.fee < 1.0 && c.value.minLiquidity > 0.0
  {
    if exchange == "traderjoe" then Some(ExchangeConfig("Trader Joe", 0.3, Avalanche, 2000.0))
    else if exchange == "raydium" then Some(ExchangeConfig("Raydium", 0.25, Solana, 1500.0))
    else if exchange == "osmosis" then Some(ExchangeConfig("Osmosis", 0.2, Cosmos, 800.0))
    else if exchange == "spookyswap" then Some(ExchangeConfig("SpookySwap", 0.2, Fantom, 600.0))
    else if exchange == "pancakeswap" then Some(ExchangeConfig("PancakeSwap", 0.25, BSC, 1200.0))
    else if exchange == "gmx" then Some(ExchangeConfig("GMX", 0.1, Arbitrum, 3000.0))
    else if exchange == "camelot" then Some(ExchangeConfig("Camelot DEX", 0.3, Arbitrum, 1800.0))
    else if exchange == "thruster" then Some(ExchangeConfig("Thruster", 0.3, Blast, 500.0))
    else if exchange == "aerodrome" then Some(ExchangeConfig("Aerodrome", 0.05, Base, 2000.0))
    else if exchange == "velodrome" then Some(ExchangeConfig("Velodrome", 0.05, Optimism, 2500.0))
    else None
  }

  /** History cap 200, top 8 pairs, top 8 exchanges. */
  const DashboardCaps: Caps := Caps(200, 8, 8)

  /** The sanity ceiling on the absolute net profit percentage. */
  const SanityCeiling: real := 100.0

  /** The default viability thresholds when no environment value is set. */
  const DefaultThresholds: Thresholds := Thresholds(0.08, 1500.0)

  predicate IsDraw(r: real) { 0.0 <= r < 1.0 }

  // ---------------------------------------------------------------------------
  // Generated quotes

  /** A token's simulated price is `low + r * span`. */
  datatype PriceRange = PriceRange(low: real, span: real)

  const ExoticTokenPrices: seq<(string, PriceRange)> := [
    ("USDC", PriceRange(1.0, 0.0)), ("USDC.e", PriceRange(1.0, 0.0)), ("USDT", PriceRange(1.001, 0.004)),
    ("BUSD", PriceRange(0.999, 0.003)), ("DAI", PriceRange(0.998, 0.005)), ("FRAX", PriceRange(0.997, 0.006)),
    ("AVAX", PriceRange(28.0, 12.0)), ("JOE", PriceRange(0.28, 0.15)), ("PNG", PriceRange(0.085, 0.045)),
    ("SOL", PriceRange(88.0, 35.0)), ("RAY", PriceRange(0.95, 0.6)), ("SRM", PriceRange(0.08, 0.05)),
    ("ORCA", PriceRange(1.2, 0.8)), ("ATOM", PriceRange(16.0, 8.0)), ("OSMO", PriceRange(0.85, 0.5)),
    ("JUNO", PriceRange(0.65, 0.4)), ("EVMOS", PriceRange(0.15, 0.1)), ("FTM", PriceRange(0.38, 0.22)),
    ("BOO", PriceRange(2.5, 1.8)), ("SPIRIT", PriceRange(0.012, 0.008)), ("TOMB", PriceRange(0.95, 0.6)),
    ("BNB", PriceRange(325.0, 60.0)), ("CAKE", PriceRange(2.8, 1.5)), ("ALPACA", PriceRange(0.35, 0.2)),
    ("XVS", PriceRange(8.5, 4.2)), ("ARB", PriceRange(1.15, 0.6)), ("GMX", PriceRange(45.0, 25.0)),
    ("GNS", PriceRange(4.8, 2.5)), ("MAGIC", PriceRange(0.78, 0.4)), ("BASE", PriceRange(2.2, 1.3)),
    ("AERO", PriceRange(0.65, 0.4)), ("WELL", PriceRange(0.02, 0.015)), ("MODE", PriceRange(0.08, 0.05)),
    ("ION", PriceRange(0.15, 0.1)), ("OP", PriceRange(2.85, 1.2)), ("VELO", PriceRange(0.18, 0.12)),
    ("SNX", PriceRange(3.2, 1.8))]

  /** The price of any token outside the table: `0.5 + r * 5`. */
  const UnlistedRange: PriceRange := PriceRange(0.5, 5.0)

  predicate PositiveRange(p: PriceRange) { p.low > 0.0 && p.span >= 0.0 }

  predicate AllPositive(table: seq<(string, PriceRange)>)
  {
    forall i :: 0 <= i < |table| ==> PositiveRange(table[i].1)
  }

  /** Every listed token has a positive price. */
  lemma TableIsPositive()
    ensures AllPositive(ExoticTokenPrices)
  {
  }

  /** The entry of a token, the first one when listed twice. */
  function Lookup(table: seq<(string, PriceRange)>, token: string): (r: Option<PriceRange>)
    requires AllPositive(table)
    ensures r.Some? ==> PositiveRange(r.value)
    ensures r.Some? <==> exists i :: 0 <= i < |table| && table[i].0 == token
  {
    if |table| == 0 then None
    else if table[0].0 == token then Some(table[0].1)
    else
      var r := Lookup(table[1..], token);
      assert forall i :: 1 <= i < |table| ==> table[i] == table[1..][i - 1];
      r
  }

  predicate Listed(token: string)
  {
    TableIsPositive();
    Lookup(ExoticTokenPrices, token).Some?
  }

  /** The range a token's price is drawn from. */
  function RangeOf(token: string): (p: PriceRange)
    ensures PositiveRange(p)
  {
    TableIsPositive();
    match Lookup(ExoticTokenPrices, token)
    case Some(p) => p
    case None => UnlistedRange
  }

  /** `low + r * span`, within the range for a draw in [0, 1). */
  function InRange(p: PriceRange, r: real): (v: real)
    requires PositiveRange(p) && 0.0 <= r < 1.0
    ensures p.low <= v <= p.low + p.span && v > 0.0
  {
    assert 0.0 <= r * p.span <= p.span by {
      assert p.span - r * p.span == (1.0 - r) * p.span;
    }
    p.low + r * p.span
  }

  /** `chainInefficiencies[config.chain]`. */
  datatype ChainProps = ChainProps(base: real, volatility: real)

  function ChainInefficiency(chain: Chain): (p: ChainProps)
    ensures 0.0 < p.base && 0.0 < p.volatility && p.base + p.volatility <= 0.06
  {
    match chain
    case Avalanche => ChainProps(0.012, 0.008)
    case Solana => ChainProps(0.015, 0.010)
    case Cosmos => ChainProps(0.025, 0.015)
    case Fantom => ChainProps(0.030, 0.020)
    case BSC => ChainProps(0.008, 0.006)
    case Arbitrum => ChainProps(0.006, 0.004)
    case Blast => ChainProps(0.035, 0.025)
    case Base => ChainProps(0.010, 0.008)
    case Optimism => ChainProps(0.008, 0.006)
  }

  /** `liquidityMultipliers[config.chain]`. */
  function LiquidityMultiplier(chain: Chain): (m: real)
    ensures 0.15 <= m <= 1.2
  {
    match chain
    case Avalanche => 0.8
    case Solana => 0.6
    case Cosmos => 0.3
    case Fantom => 0.25
    case BSC => 0.9
    case Arbitrum => 1.2
    case Blast => 0.15
    case Base => 0.7
    case Optimism => 0.8
  }

  /** The draws one call of `fetchExoticPrice` uses: the table entries of the
      two tokens, the draws for tokens outside the table, the two inefficiency
      draws, the liquidity draw and the volume draw. */
  datatype QuoteDraws = QuoteDraws(
    tableA: real, tableB: real, unlistedA: real, unlistedB: real,
    volatility: real, base: real, liquidity: real, volume: real)

  predicate QuoteDrawsValid(d: QuoteDraws)
  {
    && IsDraw(d.tableA) && IsDraw(d.tableB) && IsDraw(d.unlistedA) && IsDraw(d.unlistedB)
    && IsDraw(d.volatility) && IsDraw(d.base) && IsDraw(d.liquidity) && IsDraw(d.volume)
  }

  /** A token's simulated price. Both tokens read the same freshly drawn
      table, so a listed token quoted against itself sees one draw; an
      unlisted token draws anew each time it is looked up. */
  function SimulatedPrice(token: string, other: string, tableDraw: real, otherTableDraw: real,
                          unlistedDraw: real, isSecond: bool): (p: real)
    requires IsDraw(tableDraw) && IsDraw(otherTableDraw) && IsDraw(unlistedDraw)
    ensures p > 0.0
    ensures RangeOf(token).low <= p <= RangeOf(token).low + RangeOf(token).span
  {
    var range := RangeOf(token);
    var r := if !Listed(token) then unlistedDraw
             else if isSecond && token == other then otherTableDraw
             else tableDraw;
    InRange(range, r)
  }

  /** `priceA / priceB`, the rate before the simulated inefficiency. */
  function TheoreticalRate(tokenA: string, tokenB: string, d: QuoteDraws): (rate: real)
    requires QuoteDrawsValid(d)
    ensures rate > 0.0
  {
    var priceA := SimulatedPrice(tokenA, tokenB, d.tableA, d.tableA, d.unlistedA, false);
    var priceB := SimulatedPrice(tokenB, tokenA, d.tableB, d.tableA, d.unlistedB, true);
    PositiveQuotient(priceA, priceB);
    priceA / priceB
  }

  lemma PositiveQuotient(a: real, b: real)
    requires a > 0.0 && b > 0.0
    ensures a / b > 0.0
  {
  }

  /** `(r1 - 0.5) * volatility + (r2 - 0.5) * base`. */
  function InefficiencyOf(props: ChainProps, d: QuoteDraws): (x: real)
    requires QuoteDrawsValid(d) && props.base > 0.0 && props.volatility > 0.0
    ensures -(props.volatility + props.base) / 2.0 <= x < (props.volatility + props.base) / 2.0
  {
    (d.volatility - 0.5) * props.volatility + (d.base - 0.5) * props.base
  }

  /** `config.minLiquidity * (1 + r * 4) * multiplier`. */
  function GeneratedLiquidity(config: ExchangeConfig, d: QuoteDraws): (l: real)
    requires QuoteDrawsValid(d) && config.minLiquidity > 0.0
    ensures LiquidityFloor(config) <= l < 5.0 * LiquidityFloor(config)
  {
    var m := LiquidityMultiplier(config.chain);
    ScaledBand(config.minLiquidity, m, d.liquidity);
    config.minLiquidity * (1.0 + d.liquidity * 4.0) * m
  }

  lemma ScaledBand(base: real, m: real, r: real)
    requires base > 0.0 && m > 0.0 && 0.0 <= r < 1.0
    ensures base * m <= base * (1.0 + r * 4.0) * m < 5.0 * (base * m)
  {
    assert base * (1.0 + r * 4.0) * m == base * m + (r * 4.0) * (base * m);
    assert 0.0 <= (r * 4.0) * (base * m) < 4.0 * (base * m);
  }

  lemma VolumeBand(liquidity: real, r: real)
    requires liquidity > 0.0 && 0.0 <= r < 1.0
    ensures 2.0 * liquidity <= liquidity * (r * 8.0 + 2.0) < 10.0 * liquidity
  {
    assert liquidity * (r * 8.0 + 2.0) == 2.0 * liquidity + (r * 8.0) * liquidity;
    assert 0.0 <= (r * 8.0) * liquidity < 8.0 * liquidity;
  }

  /** Half the combined volatility and base: the largest relative departure
      of a quote from the theoretical rate. */
  function Band(props: ChainProps): real
  {
    (props.volatility + props.base) / 2.0
  }

  /** `theo * (1 + inefficiency)`, within the band around `theo`. */
  function NoisyRate(theo: real, props: ChainProps, d: QuoteDraws): (p: real)
    requires QuoteDrawsValid(d) && theo > 0.0 && 0.0 < props.base && 0.0 < props.volatility
    requires props.base + props.volatility <= 0.06
    ensures theo * (1.0 - Band(props)) <= p < theo * (1.0 + Band(props))
    ensures p > 0.0
  {
    var x := InefficiencyOf(props, d);
    BandProduct(theo, x, Band(props));
    theo * (1.0 + x)
  }

  /** The smallest liquidity a quote of the exchange can report. */
  function LiquidityFloor(c: ExchangeConfig): real
  {
    c.minLiquidity * LiquidityMultiplier(c.chain)
  }

  /** The quote a configured exchange generates around the theoretical rate `theo`. */
  function GeneratedQuote(c: ExchangeConfig, exchange: string, tokenA: string, tokenB: string,
                          theo: real, d: QuoteDraws): (q: TokenPrice)
    requires QuoteDrawsValid(d) && c.minLiquidity > 0.0 && theo > 0.0
    ensures theo * (1.0 - Band(ChainInefficiency(c.chain))) <= q.price < theo * (1.0 + Band(ChainInefficiency(c.chain)))
    ensures q.price > 0.0
    ensures q.liquidity.Some? && LiquidityFloor(c) <= q.liquidity.value < 5.0 * LiquidityFloor(c)
    ensures q.volume24h.Some? && 2.0 * q.liquidity.value <= q.volume24h.value < 10.0 * q.liquidity.value
    ensures q.symbol == tokenA + "/" + tokenB && q.source == exchange
  {
    var price := NoisyRate(theo, ChainInefficiency(c.chain), d);
    var liquidity := GeneratedLiquidity(c, d);
    VolumeBand(liquidity, d.volume);
    TokenPrice(tokenA + "/" + tokenB, price, Some(liquidity), Some(liquidity * (d.volume * 8.0 + 2.0)), exchange)
  }

  /** `fetchExoticPrice`: nothing for an exchange without a configuration;
      otherwise a quote within the chain's inefficiency band around the
      theoretical rate, and a liquidity between one and five times the
      exchange's minimum scaled by the chain multiplier. */
  function FetchExoticPrice(exchange: string, tokenA: string, tokenB: string, d: QuoteDraws): (q: Option<TokenPrice>)
    requires QuoteDrawsValid(d)
    ensures q.Some? <==> ConfigOf(exchange).Some?
    ensures q.Some? ==>
      var c := ConfigOf(exchange).value;
      var theo := TheoreticalRate(tokenA, tokenB, d);
      && theo * (1.0 - Band(ChainInefficiency(c.chain))) <= q.value.price < theo * (1.0 + Band(ChainInefficiency(c.chain)))
      && q.value.price > 0.0
      && q.value.liquidity.Some? && LiquidityFloor(c) <= q.value.liquidity.value < 5.0 * LiquidityFloor(c)
      && q.value.volume24h.Some?
      && 2.0 * q.value.liquidity.value <= q.value.volume24h.value < 10.0 * q.value.liquidity.value
      && q.value.symbol == tokenA + "/" + tokenB && q.value.source == exchange
  {
    match ConfigOf(exchange)
    case None => None
    case Some(c) => Some(GeneratedQuote(c, exchange, tokenA, tokenB, TheoreticalRate(tokenA, tokenB, d), d))
  }

  lemma BandProduct(theo: real, x: real, band: real)
    requires theo > 0.0 && -band <= x < band && band < 1.0
    ensures theo * (1.0 - band) <= theo * (1.0 + x) < theo * (1.0 + band)
    ensures theo * (1.0 + x) > 0.0
  {
  }

  /** A listed token quoted against itself has theoretical rate 1. */
  lemma SelfQuoteIsParity(token: string, d: QuoteDraws)
    requires QuoteDrawsValid(d) && Listed(token)
    ensures TheoreticalRate(token, token, d) == 1.0
  {
    var p := SimulatedPrice(token, token, d.tableA, d.tableA, d.unlistedA, false);
    assert SimulatedPrice(token, token, d.tableB, d.tableA, d.unlistedB, true) == p;
    SelfRatio(p);
  }

  lemma SelfRatio(p: real)
    requires p > 0.0
    ensures p / p == 1.0
  {
  }

  // ---------------------------------------------------------------------------
  // Evaluation

  /** `chainGasCosts[config.chain]`: one draw, taken once (not per leg). */
  function ChainGas(chain: Chain, r: real): (g: real)
    requires IsDraw(r)
    ensures 0.01 <= g < 2.5
  {
    match chain
    case Avalanche => r * 0.5 + 0.1
    case Solana => r * 0.05 + 0.01
    case Cosmos => r * 0.2 + 0.05
    case Fantom => r * 0.3 + 0.1
    case BSC => r * 0.8 + 0.2
    case Arbitrum => r * 2.0 + 0.5
    case Blast => r * 0.3 + 0.05
    case Base => r * 0.15 + 0.03
    case Optimism => r * 1.5 + 0.3
  }

  /** The draws of one triangle: three quotes and the gas. */
  datatype TriangleDraws = TriangleDraws(q13: QuoteDraws, q23: QuoteDraws, q12: QuoteDraws, gas: real)

  predicate TriangleDrawsValid(t: TriangleDraws)
  {
    QuoteDrawsValid(t.q13) && QuoteDrawsValid(t.q23) && QuoteDrawsValid(t.q12) && IsDraw(t.gas)
  }

  /** `calculateTriangularArbitrage(pair1, pair2, pair3, exchange)`. */
  function CalculateTriangularArbitrage(pair1: string, pair2: string, pair3: string, exchange: string,
                                        t: TriangleDraws, th: Thresholds): (r: Option<Opportunity>)
    requires TriangleDrawsValid(t)
    ensures r.Some? <==> ConfigOf(exchange).Some?
    ensures r.Some? ==>
      var c := ConfigOf(exchange).value;
      var low := LiquidityFloor(c);
      && r.value.exchange == exchange
      && r.value.pairs == PairsLabel(pair1, pair2, pair3)
      && r.value.fees == 3.0 * c.fee
      && r.value.gasEstimate == ChainGas(c.chain, t.gas)
      && 0.0 < r.value.gasEstimate
      && r.value.priceData.token1Price == FetchExoticPrice(exchange, pair1, pair3, t.q13).value.price
      && r.value.priceData.token2Price == FetchExoticPrice(exchange, pair2, pair3, t.q23).value.price
      && r.value.priceData.crossRate == FetchExoticPrice(exchange, pair1, pair2, t.q12).value.price
      && EvaluatedFromPriceData(r.value, pair1, pair2, pair3, c.fee)
      && low <= r.value.liquidity.pair1 < 5.0 * low
      && low <= r.value.liquidity.pair2 < 5.0 * low
      && low <= r.value.liquidity.pair3 < 5.0 * low
      && r.value.liquidity.pair1 == LiquidityOrZero(FetchExoticPrice(exchange, pair1, pair3, t.q13).value)
      && r.value.liquidity.pair2 == LiquidityOrZero(FetchExoticPrice(exchange, pair2, pair3, t.q23).value)
      && r.value.liquidity.pair3 == LiquidityOrZero(FetchExoticPrice(exchange, pair1, pair2, t.q12).value)
      && (r.value.viable <==> (r.value.profit > th.minProfitThreshold
                               && Min3(r.value.liquidity.pair1, r.value.liquidity.pair2, r.value.liquidity.pair3) > th.minLiquidity
                               && Abs(r.value.profit) < SanityCeiling))
  {
    match ConfigOf(exchange)
    case None => None
    case Some(c) =>
      var q13 := FetchExoticPrice(exchange, pair1, pair3, t.q13);
      var q23 := FetchExoticPrice(exchange, pair2, pair3, t.q23);
      var q12 := FetchExoticPrice(exchange, pair1, pair2, t.q12);
      CalculateOpportunity(exchange, pair1, pair2, pair3, c.fee, ChainGas(c.chain, t.gas),
                           SanityCeiling, th, q13, q23, q12)
  }

  /** The net profit is the better cycle's less one tenth of the gas, so at
      most 0.25 percentage points below it and never above it. */
  lemma NetProfitNearBest(pair1: string, pair2: string, pair3: string, exchange: string,
                          t: TriangleDraws, th: Thresholds)
    requires TriangleDrawsValid(t) && ConfigOf(exchange).Some?
    ensures var o := CalculateTriangularArbitrage(pair1, pair2, pair3, exchange, t, th).value;
            var p13, p23, p12 := o.priceData.token1Price, o.priceData.token2Price, o.priceData.crossRate;
            var fee := ConfigOf(exchange).value.fee;
            && p13 > 0.0 && p23 > 0.0 && p12 > 0.0
            && var best := Max(ProfitPercent(Route1Final(p13, p23, p12, fee)), ProfitPercent(Route2Final(p13, p23, p12, fee)));
               best - 0.25 < o.profit <= best
  {
    var c := ConfigOf(exchange).value;
    var q13 := FetchExoticPrice(exchange, pair1, pair3, t.q13);
    var q23 := FetchExoticPrice(exchange, pair2, pair3, t.q23);
    var q12 := FetchExoticPrice(exchange, pair1, pair2, t.q12);
    var gas := ChainGas(c.chain, t.gas);
    var e := Evaluate(q13.value.price, q23.value.price, q12.value.price,
                      LiquidityOrZero(q13.value), LiquidityOrZero(q23.value), LiquidityOrZero(q12.value),
                      c.fee, gas, SanityCeiling, th);
    assert CalculateTriangularArbitrage(pair1, pair2, pair3, exchange, t, th).value.profit == e.netProfitPercent;
  }

  /** The two components disagree on the same figures: a 120% net gain passes
      the real-API component's ceiling of 150 and fails this one's of 100. */
  lemma SanityCeilingsDisagree()
    ensures var th := Thresholds(0.1, 0.0);
            && Evaluate(1.0, 1.0, 2.2, 1.0, 1.0, 1.0, 0.0, 0.0, RealApiBot.SanityCeiling, th).viable
            && !Evaluate(1.0, 1.0, 2.2, 1.0, 1.0, 1.0, 0.0, 0.0, SanityCeiling, th).viable
  {
    var th := Thresholds(0.1, 0.0);
    var e := Evaluate(1.0, 1.0, 2.2, 1.0, 1.0, 1.0, 0.0, 0.0, RealApiBot.SanityCeiling, th);
    assert Route1Final(1.0, 1.0, 2.2, 0.0) == 2200.0;
    assert Route2Final(1.0, 1.0, 2.2, 0.0) == 1000.0 / 2.2;
    assert e.netProfitPercent == 120.0;
  }

  // ---------------------------------------------------------------------------
  // Scanning

  /** One focused pair string evaluated on an exchange. */
  function EvaluateCombo(exchange: string, combo: string, t: TriangleDraws, th: Thresholds): Option<Opportunity>
    requires TriangleDrawsValid(t)
  {
    var (pair1, pair2, pair3) := ComboTokens(combo);
    CalculateTriangularArbitrage(pair1, pair2, pair3, exchange, t, th)
  }

  predicate DrawsFor(focusedPairs: seq<string>, draws: seq<TriangleDraws>)
  {
    |draws| == |focusedPairs| && forall i :: 0 <= i < |draws| ==> TriangleDrawsValid(draws[i])
  }

  /** The result for every focused pair, in order. */
  function PairResults(exchange: string, focusedPairs: seq<string>, draws: seq<TriangleDraws>, th: Thresholds): (rs: seq<Option<Opportunity>>)
    requires DrawsFor(focusedPairs, draws)
    ensures |rs| == |focusedPairs|
  {
    seq(|focusedPairs|, i requires 0 <= i < |focusedPairs| => EvaluateCombo(exchange, focusedPairs[i], draws[i], th))
  }

  /** The `for (const pairCombo of focusedPairs)` loop: the present results
      are pushed, in the order of the focused pairs. */
  method ScanExchange(exchange: string, focusedPairs: seq<string>, draws: seq<TriangleDraws>, th: Thresholds)
    returns (exchangeOpportunities: seq<Opportunity>)
    requires DrawsFor(focusedPairs, draws)
    ensures exchangeOpportunities == Somes(PairResults(exchange, focusedPairs, draws, th))
  {
    ghost var results := PairResults(exchange, focusedPairs, draws, th);
    exchangeOpportunities := [];
    var i := 0;
    while i < |focusedPairs|
      invariant 0 <= i <= |focusedPairs|
      invariant exchangeOpportunities == Somes(results[..i])
    {
      var opportunity := EvaluateCombo(exchange, focusedPairs[i], draws[i], th);
      SomesSnoc(results, i);
      if opportunity.Some? {
        exchangeOpportunities := exchangeOpportunities + [opportunity.value];
      }
      i := i + 1;
    }
    assert results[..i] == results;
  }

  /** The pushed results are exactly the present ones, and there are no
      more of them than focused pairs. */
  lemma ScanKeepsPresentResults(exchange: string, focusedPairs: seq<string>, draws: seq<TriangleDraws>, th: Thresholds, o: Opportunity)
    requires DrawsFor(focusedPairs, draws)
    ensures var rs := PairResults(exchange, focusedPairs, draws, th);
            && (o in Somes(rs) <==> exists i :: 0 <= i < |rs| && rs[i] == Some(o))
            && |Somes(rs)| <= |focusedPairs|
  {
    var rs := PairResults(exchange, focusedPairs, draws, th);
    SomesMembership(rs, o);
  }

  /** A configured exchange yields a result for every focused pair. */
  lemma ConfiguredExchangeEvaluatesEveryPair(exchange: string, focusedPairs: seq<string>, draws: seq<TriangleDraws>, th: Thresholds)
    requires DrawsFor(focusedPairs, draws) && ConfigOf(exchange).Some?
    ensures |Somes(PairResults(exchange, focusedPairs, draws, th))| == |focusedPairs|
  {
    AllPresent(PairResults(exchange, focusedPairs, draws, th));
  }

  // ---------------------------------------------------------------------------
  // Connection bookkeeping

  /** Status text per exchange and the set of connected exchanges. */
  datatype Connections = Connections(status: map<string, string>, connected: set<string>)

  /** Connecting waits a chain-dependent delay and cannot fail, so an
      exchange the render did not see connected becomes connected. */
  function Connect(s: Connections, wasConnected: bool, exchange: string): (r: Connections)
    ensures exchange in r.connected || wasConnected
    ensures r.connected - {exchange} == s.connected - {exchange}
    ensures !wasConnected ==> r.status == s.status[exchange := "connected"]
    ensures wasConnected ==> r == s
  {
    if wasConnected then s
    else
      var connecting := s.status[exchange := "connecting"];
      Connections(connecting[exchange := "connected"], s.connected + {exchange})
  }

  /** The catch around a failed scan: the exchange is marked "error" and
      removed from a copy of the connected set. */
  function ScanFailed(s: Connections, exchange: string): (r: Connections)
    ensures exchange !in r.connected
    ensures r.status == s.status[exchange := "error"]
  {
    var newSet := s.connected - {exchange};
    Connections(s.status[exchange := "error"], newSet)
  }

  /** A failed scan removes only its own exchange: every other exchange keeps
      its membership and its status. */
  lemma ScanFailureIsLocal(s: Connections, exchange: string, other: string)
    requires other != exchange
    ensures other in ScanFailed(s, exchange).connected <==> other in s.connected
    ensures other in s.status ==> other in ScanFailed(s, exchange).status
                                  && ScanFailed(s, exchange).status[other] == s.status[other]
    ensures ScanFailed(s, exchange).connected == s.connected - {exchange}
  {
  }

  /** Connecting and then failing leaves the exchange out and everything else as it was. */
  lemma ConnectThenFailLeavesOthers(s: Connections, exchange: string)
    ensures ScanFailed(Connect(s, false, exchange), exchange).connected == s.connected - {exchange}
  {
  }

  /** One exchange's turn in the scan: connected if the render did not see
      it connected, then removed again if its scan failed. */
  function ScanStep(s: Connections, wasConnected: bool, exchange: string, failed: bool): Connections
  {
    var c := Connect(s, wasConnected, exchange);
    if failed then ScanFailed(c, exchange) else c
  }

  /** The connection state after the turns of `enabled`, in order, starting
      from `s`; the render's snapshot of the connected set is `s.connected`. */
  function ConnectionsAfter(s: Connections, enabled: seq<string>, failures: seq<bool>): Connections
    requires |failures| == |enabled|
  {
    if |enabled| == 0 then s
    else
      var n := |enabled| - 1;
      ScanStep(ConnectionsAfter(s, enabled[..n], failures[..n]), enabled[n] in s.connected, enabled[n], failures[n])
  }

  /** `x` has the same membership and the same status in `r` as in `s`. */
  predicate Untouched(r: Connections, s: Connections, x: string)
  {
    && (x in r.connected <==> x in s.connected)
    && (x in r.status <==> x in s.status)
    && (x in r.status && x in s.status ==> r.status[x] == s.status[x])
  }

  /** Where one scanned exchange ends up: out of the set with status "error"
      when its scan failed; otherwise as it was when it was already
      connected, and "connected" and in the set when it was not. */
  predicate ScanOutcome(r: Connections, s: Connections, x: string, failed: bool)
  {
    if failed then x !in r.connected && x in r.status && r.status[x] == "error"
    else if x in s.connected then Untouched(r, s, x)
    else x in r.connected && x in r.status && r.status[x] == "connected"
  }

  /** An exchange's turn changes no other exchange. */
  lemma ScanStepIsLocal(s: Connections, wasConnected: bool, exchange: string, failed: bool, x: string)
    requires x != exchange
    ensures Untouched(ScanStep(s, wasConnected, exchange, failed), s, x)
  {
  }

  /** An enabled exchange whose scan failed, or that had to be connected,
      has a status once its turn has come; later turns keep it. */
  lemma {:induction false} ConnectionsAfterHasStatus(s: Connections, enabled: seq<string>, failures: seq<bool>, e: nat)
    requires |failures| == |enabled| && e < |enabled|
    ensures failures[e] || enabled[e] !in s.connected ==> enabled[e] in ConnectionsAfter(s, enabled, failures).status
  {
    var n := |enabled| - 1;
    if e < n {
      assert enabled[..n][e] == enabled[e] && failures[..n][e] == failures[e];
      ConnectionsAfterHasStatus(s, enabled[..n], failures[..n], e);
    }
  }

  /** An exchange that is not enabled keeps its membership and status. */
  lemma {:induction false} ConnectionsAfterOutside(s: Connections, enabled: seq<string>, failures: seq<bool>, x: string)
    requires |failures| == |enabled| && x !in enabled
    ensures Untouched(ConnectionsAfter(s, enabled, failures), s, x)
  {
    if |enabled| > 0 {
      var n := |enabled| - 1;
      assert x !in enabled[..n] by {
        forall k | 0 <= k < n ensures enabled[..n][k] != x { assert enabled[..n][k] == enabled[k]; }
      }
      ConnectionsAfterOutside(s, enabled[..n], failures[..n], x);
      ScanStepIsLocal(ConnectionsAfter(s, enabled[..n], failures[..n]), enabled[n] in s.connected, enabled[n], failures[n], x);
    }
  }

  /** With every exchange enabled once, each ends up as its own turn left it. */
  lemma {:induction false} ConnectionsAfterOutcome(s: Connections, enabled: seq<string>, failures: seq<bool>, e: nat)
    requires |failures| == |enabled| && NoRepeats(enabled) && e < |enabled|
    ensures ScanOutcome(ConnectionsAfter(s, enabled, failures), s, enabled[e], failures[e])
  {
    var n := |enabled| - 1;
    var before := ConnectionsAfter(s, enabled[..n], failures[..n]);
    if e == n {
      assert enabled[n] !in enabled[..n] by {
        forall k | 0 <= k < n ensures enabled[..n][k] != enabled[n] { assert enabled[..n][k] == enabled[k]; }
      }
      ConnectionsAfterOutside(s, enabled[..n], failures[..n], enabled[n]);
    } else {
      assert NoRepeats(enabled[..n]) by {
        forall i, j | 0 <= i < j < n ensures enabled[..n][i] != enabled[..n][j] {
          assert enabled[..n][i] == enabled[i] && enabled[..n][j] == enabled[j];
        }
      }
      assert enabled[..n][e] == enabled[e] && failures[..n][e] == failures[e];
      ConnectionsAfterOutcome(s, enabled[..n], failures[..n], e);
      ScanStepIsLocal(before, enabled[n] in s.connected, enabled[n], failures[n], enabled[e]);
    }
  }

  // ---------------------------------------------------------------------------
  // The whole scan

  /** What one exchange contributes: nothing when its scan failed. */
  function ExchangeResults(exchange: string, scanFails: bool,
                           focusedPairs: seq<string>, draws: seq<TriangleDraws>, th: Thresholds): seq<Opportunity>
    requires DrawsFor(focusedPairs, draws)
  {
    if scanFails then [] else Somes(PairResults(exchange, focusedPairs, draws, th))
  }

  predicate ScanInputs(enabled: seq<string>, focusedPairs: seq<string>, failures: seq<bool>, draws: seq<seq<TriangleDraws>>)
  {
    |failures| == |enabled| && |draws| == |enabled| && forall e :: 0 <= e < |draws| ==> DrawsFor(focusedPairs, draws[e])
  }

  function AllExchangeResults(enabled: seq<string>, focusedPairs: seq<string>, failures: seq<bool>,
                              draws: seq<seq<TriangleDraws>>, th: Thresholds): (rs: seq<seq<Opportunity>>)
    requires ScanInputs(enabled, focusedPairs, failures, draws)
    ensures |rs| == |enabled|
  {
    seq(|enabled|, e requires 0 <= e < |enabled| => ExchangeResults(enabled[e], failures[e], focusedPairs, draws[e], th))
  }

  /** `scanForOpportunities`: nothing when the bot is stopped; otherwise every
      enabled exchange is connected if need be and scanned one pair after
      another, the results are gathered in exchange order, and the history
      and analytics are updated. Whether an exchange's scan fails is an input. */
  method ScanForOpportunities(isRunning: bool, d: Dashboard, conn: Connections,
                              enabled: seq<string>, focusedPairs: seq<string>,
                              failures: seq<bool>, draws: seq<seq<TriangleDraws>>, th: Thresholds)
    returns (d': Dashboard, conn': Connections)
    requires ScanInputs(enabled, focusedPairs, failures, draws)
    ensures !isRunning ==> d' == d && conn' == conn
    ensures isRunning ==>
      d' == AfterScan(d, Flatten(AllExchangeResults(enabled, focusedPairs, failures, draws, th)), DashboardCaps)
    ensures isRunning ==> forall e :: 0 <= e < |enabled| && failures[e] ==> enabled[e] in conn'.status
    ensures isRunning ==> conn' == ConnectionsAfter(conn, enabled, failures)
    ensures isRunning ==> forall x :: x !in enabled ==> Untouched(conn', conn, x)
    ensures isRunning && NoRepeats(enabled) ==>
      forall e :: 0 <= e < |enabled| ==> ScanOutcome(conn', conn, enabled[e], failures[e])
  {
    d', conn' := d, conn;
    if !isRunning {
      return;
    }
    ghost var perExchange := AllExchangeResults(enabled, focusedPairs, failures, draws, th);
    var results: seq<seq<Opportunity>> := [];
    var e := 0;
    while e < |enabled|
      invariant 0 <= e <= |enabled|
      invariant results == perExchange[..e]
      invariant conn' == ConnectionsAfter(conn, enabled[..e], failures[..e])
    {
      PrefixSnoc(enabled, e);
      PrefixSnoc(failures, e);
      assert enabled[..e + 1][..e] == enabled[..e] && failures[..e + 1][..e] == failures[..e];
      var exchange := enabled[e];
      conn' := Connect(conn', exchange in conn.connected, exchange);
      var found: seq<Opportunity> := [];
      if failures[e] {
        conn' := ScanFailed(conn', exchange);
      } else {
        found := ScanExchange(exchange, focusedPairs, draws[e], th);
      }
      assert found == perExchange[e];
      PrefixSnoc(perExchange, e);
      results := results + [found];
      e := e + 1;
    }
    assert results == perExchange by {
      assert perExchange[..e] == perExchange;
    }
    assert enabled[..e] == enabled && failures[..e] == failures;
    forall k | 0 <= k < |enabled| && failures[k]
      ensures enabled[k] in conn'.status
    {
      ConnectionsAfterHasStatus(conn, enabled, failures, k);
    }
    forall x | x !in enabled
      ensures Untouched(conn', conn, x)
    {
      ConnectionsAfterOutside(conn, enabled, failures, x);
    }
    if NoRepeats(enabled) {
      forall e | 0 <= e < |enabled|
        ensures ScanOutcome(conn', conn, enabled[e], failures[e])
      {
        ConnectionsAfterOutcome(conn, enabled, failures, e);
      }
    }
    var newOpportunities := CollectNewOpportunities(results);
    d' := AfterScan(d, newOpportunities, DashboardCaps);
  }
}
